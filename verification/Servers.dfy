/** The server object: its players, its game and its timer, updated in place as things happen. */
module Servers {
  import opened Geometry
  import opened Definitions
  import opened Scores
  import opened HighScores
  import opened Snakes
  import opened LevelModel
  import opened GameModel
  import opened Games
  import opened TurnQueues
  import opened ServerModel
  import opened ServerInvariants
  import opened ServerSurvival

  ghost function StateOfPlayer(p: RemotePlayer): PlayerState
    reads p
  {
    PlayerState(p.id, p.name, p.client, p.Turns())
  }

  ghost function StatesOfPlayers(players: seq<RemotePlayer>): (states: seq<PlayerState>)
    reads players
    ensures |states| == |players|
    ensures forall i :: 0 <= i < |players| ==> states[i] == StateOfPlayer(players[i])
  {
    seq(|players|, i requires 0 <= i < |players| reads players => StateOfPlayer(players[i]))
  }

  /** No two players share an id. */
  ghost predicate Distinct(players: seq<RemotePlayer>) {
    forall i, j :: 0 <= i < j < |players| ==> players[i].id != players[j].id
  }

  lemma {:induction false} MovesOfOneMore(players: seq<PlayerState>, i: nat)
    requires i < |players|
    ensures
      var moves, next := MovesOf(players[..i]), players[i].turns.Front();
      MovesOf(players[..i + 1]) == if next.Some? then moves[players[i].id := next.value] else moves
  {
    assert players[..i + 1][..i] == players[..i];
  }

  /** Throw away the turns of all players. */
  method ResetAll(players: seq<RemotePlayer>)
    requires Distinct(players)
    modifies players
    ensures StatesOfPlayers(players) == old(AllReset(StatesOfPlayers(players)))
  {
    for i := 0 to |players|
      invariant forall k :: 0 <= k < i ==>
        StateOfPlayer(players[k]) == old(StateOfPlayer(players[k])).(turns := NO_TURNS)
      invariant forall k :: i <= k < |players| ==> StateOfPlayer(players[k]) == old(StateOfPlayer(players[k]))
    {
      players[i].Reset();
    }
  }

  /** The players of all other clients. */
  method PlayersWithout(players: seq<RemotePlayer>, client: ClientId) returns (kept: seq<RemotePlayer>)
    requires Distinct(players)
    ensures StatesOfPlayers(kept) == WithoutClient(StatesOfPlayers(players), client)
    ensures Distinct(kept) && forall k :: 0 <= k < |kept| ==> kept[k] in players
  {
    hide StatesOfPlayers, RemotePlayer.Turns;
    ghost var states := StatesOfPlayers(players);
    kept := [];
    for i := |players| downto 0
      invariant StatesOfPlayers(kept) == WithoutClient(states[i..], client)
      invariant Distinct(kept) && forall k :: 0 <= k < |kept| ==> kept[k] in players[i..]
    {
      assert states[i..][1..] == states[i + 1..];
      assert players[i..] == [players[i]] + players[i + 1..];
      if players[i].client != client {
        assert StatesOfPlayers([players[i]] + kept) == [states[i]] + StatesOfPlayers(kept);
        kept := [players[i]] + kept;
      }
    }
    assert states[0..] == states;
  }

  /** Queue a turn for the player at a place. */
  method TurnOne(players: seq<RemotePlayer>, k: nat, direction: Direction)
    requires Distinct(players) && k < |players|
    modifies players
    ensures StatesOfPlayers(players) == old(Turned(StatesOfPlayers(players), players[k].id, direction))
  {
    hide TurnQueue.Queue;
    players[k].QueueTurn(direction);
  }

  method SeatOne(player: RemotePlayer, scorer: ScoreTracker, count: int)
    requires player.id !in scorer.scores && player.id !in scorer.lives
    modifies player, scorer
    ensures StateOfPlayer(player) == old(StateOfPlayer(player)).(turns := NO_TURNS)
    ensures
      var sb := old(scorer.Board());
      scorer.Board() == ScoreBoard(sb.scores[player.id := 0], sb.lives[player.id := count])
  {
    scorer.Add(player.id, count);
    player.Reset();
  }

  /** Enter all players into an empty scorer and throw away their turns. */
  method Seat(players: seq<RemotePlayer>, scorer: ScoreTracker, count: int)
    requires Distinct(players) && scorer.Board() == NO_SCORES
    modifies players, scorer
    ensures StatesOfPlayers(players) == old(AllReset(StatesOfPlayers(players)))
    ensures scorer.Board() == FreshScores(old(Ids(StatesOfPlayers(players))), count)
  {
    hide FreshScores, RemotePlayer.Turns, StatesOfPlayers, Ids, AllReset;
    ghost var before := StatesOfPlayers(players);
    ghost var ids := Ids(before);
    assert ids[..0] == [];
    FreshNone(count);
    for i := 0 to |players|
      invariant forall k :: 0 <= k < i ==> StateOfPlayer(players[k]) == before[k].(turns := NO_TURNS)
      invariant forall k :: i <= k < |players| ==> StateOfPlayer(players[k]) == before[k]
      invariant scorer.Board() == FreshScores(ids[..i], count)
    {
      FreshOneMore(ids, i, count);
      assert StateOfPlayer(players[i]) == before[i] && players[i].id !in ids[..i];
      SeatOne(players[i], scorer, count);
    }
    assert ids[..|players|] == ids;
  }

  /** Take the next turn of each player that has one. */
  method TakeMoves(players: seq<RemotePlayer>) returns (moves: Moves)
    requires Distinct(players)
    modifies players
    ensures moves == old(MovesOf(StatesOfPlayers(players)))
    ensures StatesOfPlayers(players) == old(AllDequeued(StatesOfPlayers(players)))
  {
    hide MovesOf;
    ghost var before := StatesOfPlayers(players);
    moves := map[];
    assert MovesOf(before[..0]) == map[] by { NoMoves(); }
    for i := 0 to |players|
      invariant forall k :: 0 <= k < i ==> StateOfPlayer(players[k]) == before[k].(turns := before[k].turns.Rest())
      invariant forall k :: i <= k < |players| ==> StateOfPlayer(players[k]) == before[k]
      invariant moves == MovesOf(before[..i])
    {
      MovesOfOneMore(before, i);
      var move := players[i].Dequeue();
      if move.Some? {
        moves := moves[players[i].id := move.value];
      }
    }
    assert before[..|players|] == before;
  }

  lemma {:induction false} NoMoves()
    ensures MovesOf([]) == map[]
  {
  }

  lemma {:induction false} NothingScored(sb: ScoreBoard)
    ensures TeamScore([], sb) == 0 && ScoresByName([], sb) == map[]
  {
  }

  lemma {:induction false} OneMoreScored(players: seq<PlayerState>, i: nat, sb: ScoreBoard)
    requires i < |players| && players[i].id in sb.scores
    ensures TeamScore(players[..i + 1], sb) == TeamScore(players[..i], sb) + sb.scores[players[i].id]
    ensures
      var scores := ScoresByName(players[..i], sb);
      ScoresByName(players[..i + 1], sb)
      == if players[i].name in scores then scores else scores[players[i].name := sb.scores[players[i].id]]
  {
    assert players[..i + 1][..i] == players[..i];
  }

  lemma {:induction false} StillScored(settings: GameSettings, l: LevelState, moves: Moves, st: ServerState,
                                       s: ServerState)
    requires l.Ready() && s.players == AllDequeued(st.players)
    requires s.scorer == TickedScores(settings, l, moves, st.scorer)
    ensures AllScored(s) <==> AllScored(st)
  {
    hide Eaters, Casualties;
    forall i | 0 <= i < |st.players|
      ensures s.players[i].id == st.players[i].id
      ensures st.players[i].id in st.scorer.scores <==> st.players[i].id in s.scorer.scores
    {
    }
  }

  /** A state with one more wait of the timer, if there is to be one. */
  function Rearmed(st: ServerState, countdown: Option<nat>): ServerState {
    if countdown.Some? then st.(timers := st.timers + [countdown.value]) else st
  }

  /** The state when the moves have been played and the clients know about it. */
  ghost function MovesPlayed(st: ServerState, choice: Choice): ServerState
    requires st.game.Some? && Tickable(st.game.value, st.scorer)
    requires Serves(choice, st.game.value, MovesOf(st.players), st.scorer)
  {
    var g, moves := st.game.value, MovesOf(st.players);
    st.(players := AllDequeued(st.players),
        game := Some(GameTicked(g, moves, st.scorer, choice)),
        scorer := TickedScores(g.settings, g.level, moves, st.scorer),
        log := st.log + [TickMessage(moves)] + Announced(g, moves, st.scorer, choice))
  }

  /** The clients hear of a countdown, and keys pressed meanwhile do not count. */
  function CountedDown(st: ServerState, countdown: nat): ServerState
    requires countdown > 0
  {
    Rearmed(st.(log := st.log + [Countdown(countdown)], players := AllReset(st.players)), Some(countdown - 1))
  }

  /** The draws serve a tick that plays, if it can be played to its end. */
  ghost predicate PlayDraws(st: ServerState, choice: Choice) {
    PlaySafe(st) ==> Serves(choice, st.game.value, MovesOf(st.players), st.scorer)
  }

  /** What a tick does once it has noticed a pause and set the timer anew. */
  lemma {:induction false} TickInSteps(cfg: Config, st: ServerState, left: nat, choice: Choice)
    requires Draws(st, left, choice)
    ensures
      var rests, countdown := Rests(st, left), if st.pausing then 0 else left;
      var s := st.(pausing := false, paused := st.paused || rests);
      if rests then TickSafe(st, left) && TickOf(cfg, st, left, choice) == s
      else
        var t := s.(timers := []);
        && (TickSafe(st, left) <==> st.game.Some? && (countdown == 0 ==> PlaySafe(t)))
        && (countdown == 0 ==> PlayDraws(t, choice))
        && (TickSafe(st, left) ==>
              TickOf(cfg, st, left, choice)
              == if countdown > 0 then CountedDown(t, countdown) else Played(cfg, t, choice))
  {
    hide Tickable, Serves, Played, MovesOf, AllReset;
    var t := st.(pausing := false, paused := st.paused || Rests(st, left), timers := []);
    assert PlaySafe(t) <==> PlaySafe(st);
  }

  /** A tick that fits is served: if it ends the game, it needs no draws. */
  lemma {:induction false} PlayIsSupplied(st: ServerState, choice: Choice)
    requires st.game.Some? && Tickable(st.game.value, st.scorer) && PlayDraws(st, choice)
    ensures Supplies(choice, st.game.value, MovesOf(st.players), st.scorer)
  {
    hide TickedResult, Ticked, CanStart, EnoughStarts, MovesOf, Suits, LevelState.Ready, LevelState.NumberFits,
         LevelState.Scorable;
  }

  /** The steps of a tick that plays: the moves are played, which fails if a level with too few starts
      starts; the game ends, which fails if somebody has no score; or it goes on. */
  lemma {:induction false} PlayedInSteps(cfg: Config, st: ServerState, choice: Choice)
    requires st.game.Some? && Tickable(st.game.value, st.scorer) && PlayDraws(st, choice)
    ensures Supplies(choice, st.game.value, MovesOf(st.players), st.scorer)
    ensures
      var g, moves := st.game.value, MovesOf(st.players);
      var result := ProgressedResult(g.level, moves, st.scorer);
      if !Fits(g, moves, st.scorer) then !PlaySafe(st)
      else
        var s := MovesPlayed(st, choice);
        && s.game.Some?
        && (PlaySafe(st) <==> result != GameOver || AllScored(s))
        && (PlaySafe(st) ==>
              Played(cfg, st, choice)
              == if result == GameOver then Rearmed(GameEnded(s, choice.now), None)
                 else if result.Rank() >= AdvanceLevel.Rank() then
                   Rearmed(s.(players := AllReset(s.players)), Some(cfg.countdown))
                 else Rearmed(s, Some(0)))
  {
    hide Tickable, Serves, GameTicked, Announced, TickedScores, ProgressedResult, GameEnded, AllDequeued, AllReset,
         MovesOf, Fits, AllScored;
    PlayIsSupplied(st, choice);
    var g, moves := st.game.value, MovesOf(st.players);
    if Fits(g, moves, st.scorer) {
      TickableIsReady(g, st.scorer);
      StillScored(g.settings, g.level, moves, st, MovesPlayed(st, choice));
      SentInTurn(st.log, [TickMessage(moves)], Announced(g, moves, st.scorer, choice));
    }
  }

  lemma {:induction false} SentInTurn(log: seq<Message>, a: seq<Message>, b: seq<Message>)
    ensures log + (a + b) == log + a + b
  {
  }

  /** The state once the clients have heard of a game and its players are seated. */
  function Seated(cfg: Config, st: ServerState): ServerState {
    st.(log := st.log + [GameStart(cfg.settings)],
        scorer := FreshScores(Ids(st.players), cfg.settings.startLives),
        players := AllReset(st.players))
  }

  /** The wait that has just ended makes no difference to its tick. */
  lemma {:induction false} WaitsDoNotMatter(st: ServerState, countdown: nat, choice: Choice)
    requires st.timers != [] && Draws(st, countdown, choice)
    ensures
      var s := st.(timers := st.timers[1..]);
      && (TickSafe(s, countdown) <==> TickSafe(st, countdown))
      && Draws(s, countdown, choice)
      && (TickSafe(s, countdown) ==> TickServed(s, countdown, choice))
  {
    hide Tickable, Serves, Fits, MovesOf;
  }

  /** Seating the players makes no difference to the start of a game. */
  lemma {:induction false} SeatedFits(cfg: Config, st: ServerState, choice: Choice)
    ensures
      var s := Seated(cfg, st);
      && Ids(s.players) == Ids(st.players)
      && (StartFits(cfg, s) <==> StartFits(cfg, st))
      && (StartServed(cfg, s, choice) <==> StartServed(cfg, st, choice))
  {
    var s := Seated(cfg, st);
    assert Ids(s.players) == Ids(st.players);
    hide Suits, CanStart, EnoughStarts, FreshScores;
  }

  /** What it takes for a game to start and to be ticked for the first time. */
  lemma {:induction false} StartInSteps(cfg: Config, st: ServerState, starting: Choice, ticking: Choice)
    requires WellSet(cfg) && st.scorer == NO_SCORES && WillStart(st) && StartDraws(cfg, st, starting, ticking)
    requires forall i, j :: 0 <= i < j < |st.players| ==> st.players[i].id != st.players[j].id
    ensures Suits(cfg.levels, cfg.settings, Ids(st.players))
    ensures StartFits(cfg, st) ==> StartServed(cfg, st, starting)
    ensures StartFits(cfg, st) ==>
      var s := GameBegun(cfg, st, starting);
      && Sane(s) && Draws(s, cfg.countdown, ticking)
      && (StartSurvives(cfg, st, starting, ticking) <==> TickSafe(s, cfg.countdown))
      && (TickSafe(s, cfg.countdown) ==> TickServed(s, cfg.countdown, ticking))
    ensures !StartFits(cfg, st) ==> !StartSurvives(cfg, st, starting, ticking)
  {
    hide LevelDefinition.WellFormed, CanStart, EnoughStarts, GameBegun, TickSafe, TickServed, Sane;
    if StartFits(cfg, st) {
      BegunIsSane(cfg, st, starting);
    }
  }

  lemma {:induction false} BegunIsSane(cfg: Config, st: ServerState, choice: Choice)
    requires cfg.settings.startLives >= 1 && StartServed(cfg, st, choice)
    ensures Sane(GameBegun(cfg, st, choice))
  {
    BegunGame(cfg, st, choice);
    hide Suits, CanStart, Started, LawfulGame, Tickable, FreshScores;
    var s := GameBegun(cfg, st, choice);
    LawfulGameTicks(s.game.value, s.scorer);
  }

  /** How a game begins. */
  lemma {:induction false} BegunInSteps(cfg: Config, st: ServerState, choice: Choice)
    requires StartServed(cfg, st, choice)
    ensures
      var s := Seated(cfg, st);
      && StartServed(cfg, s, choice)
      && var g := GameModel.Started(cfg.levels, cfg.settings, Ids(s.players), cfg.settings.startLevel, choice);
      && GameBegun(cfg, st, choice) == s.(game := Some(g), log := s.log + Announcement(g.level))
  {
    var s := Seated(cfg, st);
    assert Ids(s.players) == Ids(st.players);
    hide CanStart, GameModel.Started, FreshScores, Ids, Announcement;
  }

  /** A game object with its first level set up, or none if the level has too few starts. */
  method NewGame(cfg: Config, ids: seq<PlayerId>, choice: Choice) returns (game: Game?, announced: seq<Message>)
    requires Suits(cfg.levels, cfg.settings, ids)
    requires EnoughStarts(cfg.levels, ids, cfg.settings.startLevel) ==>
      CanStart(cfg.levels, cfg.settings, ids, cfg.settings.startLevel, choice)
    ensures game != null <==> EnoughStarts(cfg.levels, ids, cfg.settings.startLevel)
    ensures game != null ==>
      && game.Valid() && fresh(game.Repr())
      && game.State() == GameModel.Started(cfg.levels, cfg.settings, ids, cfg.settings.startLevel, choice)
      && announced == Announcement(game.State().level)
  {
    hide GameModel.Started, Suits, CanStart, EnoughStarts, Announcement;
    var g := new Game(cfg.levels, cfg.settings);
    var ok;
    ok, announced := g.Start(ids, choice);
    game := if ok then g else null;
  }

  class Server {
    const cfg: Config
    var connections: seq<Connection>
    var nextClient: ClientId
    var players: seq<RemotePlayer>
    var nextPlayer: PlayerId
    var game: Game?
    var timers: seq<nat>
    var pausing: bool
    var paused: bool
    const scorer: ScoreTracker
    const highScores: HighScoreManager
    var log: seq<Message>

    ghost predicate Valid()
      reads this, highScores, game, if game == null then {} else game.Repr()
    {
      && highScores.Valid()
      && Distinct(players) && (forall i :: 0 <= i < |players| ==> players[i].id < nextPlayer)
      && (game != null ==> game.Valid())
    }

    /** The objects of the game. */
    ghost function GameRepr(): set<object>
      reads this, game, if game == null then {} else game.Repr()
    {
      if game == null then {} else game.Repr()
    }

    ghost function GameValue(): Option<GameState>
      reads this, highScores, game, if game == null then {} else game.Repr()
      requires Valid()
    {
      if game == null then None else Some(game.State())
    }

    ghost function State(): ServerState
      reads this, players, scorer, highScores, game, if game == null then {} else game.Repr()
      requires Valid()
    {
      ServerState(connections, nextClient, StatesOfPlayers(players), nextPlayer, GameValue(), timers, pausing, paused,
                  scorer.Board(), highScores.scores, log)
    }

    constructor (cfg: Config)
      ensures this.cfg == cfg && Valid() && State() == IDLE
    {
      this.cfg := cfg;
      connections, nextClient, players, nextPlayer := [], 0, [], 0;
      game, timers, pausing, paused, log := null, [], false, false, [];
      scorer := new ScoreTracker();
      highScores := new HighScoreManager();
    }

    // -------------------------------------------------------------- small steps

    method SendToAll(messages: seq<Message>)
      requires Valid()
      modifies this`log
      ensures Valid() && GameRepr() == old(GameRepr())
      ensures State() == old(State()).(log := old(State()).log + messages)
    {
      log := log + messages;
    }

    method ResetPlayers()
      requires Valid()
      modifies players
      ensures Valid() && GameRepr() == old(GameRepr()) && unchanged(this)
      ensures State() == old(State()).(players := AllReset(old(State()).players))
    {
      ResetAll(players);
    }

    method TakeTurns() returns (moves: Moves)
      requires Valid()
      modifies players
      ensures Valid() && GameRepr() == old(GameRepr()) && unchanged(this)
      ensures State() == old(State()).(players := AllDequeued(old(State()).players))
      ensures moves == MovesOf(old(State()).players)
    {
      hide MovesOf, AllDequeued, StatesOfPlayers, RemotePlayer.Turns;
      moves := TakeMoves(players);
    }

    method TickGame(moves: Moves, choice: Choice) returns (ok: bool, result: TickResult, announced: seq<Message>)
      requires Valid() && State().game.Some? && Tickable(State().game.value, State().scorer)
      requires Supplies(choice, State().game.value, moves, State().scorer)
      modifies scorer, GameRepr()
      ensures unchanged(this)
      ensures ok <==> Fits(old(State()).game.value, moves, old(State()).scorer)
      ensures ok ==> Valid()
      ensures ok ==>
        var st, g := old(State()), old(State()).game.value;
        && State() == st.(game := Some(GameTicked(g, moves, st.scorer, choice)),
                          scorer := TickedScores(g.settings, g.level, moves, st.scorer))
        && result == ProgressedResult(g.level, moves, st.scorer)
        && announced == Announced(g, moves, st.scorer, choice)
    {
      hide Tickable, Serves, Fits, GameTicked, Announced, TickedScores, ProgressedResult, Game.State;
      ok, result, announced := game.Tick(scorer, moves, choice);
    }

    // -------------------------------------------------------------- ticks

    /** The end of a game. It fails if some player has no score. */
    method GameEnd(now: int) returns (ok: bool)
      requires Valid() && State().game.Some?
      modifies this`log, this`connections, this`game, scorer, highScores
      ensures ok <==> AllScored(old(State()))
      ensures ok ==> Valid() && State() == old(GameEnded(State(), now))
    {
      hide FinalScore, WithScore, ReportOn, AllUnready, Unreadied, StatesOfPlayers, State, Valid, GameRepr, GameValue,
           AllScored;
      var report := EnterScore(now);
      if report.None? {
        return false;
      }
      SendToAll([GameOverMessage(report.value)]);
      UnreadyAll();
      Abandon();
      return true;
    }

    /** The score of the game enters the tables. */
    method EnterScore(now: int) returns (report: Option<seq<Ranked>>)
      requires Valid() && State().game.Some?
      modifies highScores
      ensures unchanged(this) && (report.Some? <==> AllScored(old(State())))
      ensures report.Some? ==> Valid()
      ensures report.Some? ==>
        var st := old(State());
        var settings, score := st.game.value.settings, FinalScore(st.players, st.scorer, now);
        && State() == st.(highScores := WithScore(st.highScores, settings, score))
        && report.value == ReportOn(st.highScores, settings, score)
    {
      hide FinalScore, WithScore, ReportOn, Ordered, StatesOfPlayers;
      var score := FinalHighScore(now);
      if score.None? {
        return None;
      }
      var r := highScores.Insert(game.settings, score.value);
      return Some(r);
    }

    method Abandon()
      requires Valid()
      modifies this`game, scorer
      ensures Valid() && State() == old(State()).(scorer := NO_SCORES, game := None)
    {
      hide StatesOfPlayers, Ordered;
      scorer.Clear();
      game := null;
    }

    /** The score that a game goes down with: the time, what all players have scored together, and what
        each of them has scored. There is none if the scorer does not know some player. */
    method FinalHighScore(now: int) returns (score: Option<HighScore>)
      ensures score.Some? <==> forall i :: 0 <= i < |players| ==> players[i].id in scorer.scores
      ensures score.Some? ==> score.value == FinalScore(StatesOfPlayers(players), scorer.Board(), now)
    {
      hide TeamScore, ScoresByName;
      ghost var states, sb := StatesOfPlayers(players), scorer.Board();
      var r := HighScore(now, 0, map[]);
      assert states[..0] == [];
      NothingScored(sb);
      for i := 0 to |players|
        invariant r == FinalScore(states[..i], sb, now)
        invariant forall k :: 0 <= k < i ==> players[k].id in scorer.scores
      {
        if players[i].id !in scorer.scores {
          return None;
        }
        OneMoreScored(states, i, sb);
        var points := scorer.scores[players[i].id];
        r := r.(total := r.total + points);
        if players[i].name !in r.playerScores {
          r := r.(playerScores := r.playerScores[players[i].name := points]);
        }
      }
      assert states[..|players|] == states;
      return Some(r);
    }

    method UnreadyAll()
      requires Valid()
      modifies this`connections, this`log
      ensures Valid()
      ensures
        var st := old(State());
        State() == st.(connections := AllUnready(st.connections), log := st.log + Unreadied(st.connections))
    {
      hide StatesOfPlayers, Ordered, ScoreTracker.Board;
      for i := 0 to |connections|
        invariant |connections| == |old(connections)|
        invariant forall k :: 0 <= k < i ==> connections[k] == Connection(old(connections)[k].id, false)
        invariant forall k :: i <= k < |connections| ==> connections[k] == old(connections)[k]
        invariant log == old(log) + Unreadied(old(connections))[..i]
      {
        log := log + [UpdateReadiness(connections[i].id, false)];
        connections := connections[i := Connection(connections[i].id, false)];
      }
      assert connections == AllUnready(old(connections)) && log == old(log) + Unreadied(old(connections));
    }

    /** The half of a tick that plays. It returns the countdown to go on with, unless the game is over. */
    method Play(choice: Choice) returns (ok: bool, countdown: Option<nat>)
      requires Valid() && State().game.Some? && Tickable(State().game.value, State().scorer)
      requires PlayDraws(State(), choice)
      modifies this`log, this`connections, this`game, players, scorer, highScores, GameRepr()
      ensures ok <==> PlaySafe(old(State()))
      ensures ok ==> Valid() && Rearmed(State(), countdown) == old(Played(cfg, State(), choice))
    {
      ghost var st := State();
      PlayedInSteps(cfg, st, choice);
      hide PlaySafe, PlayDraws, Played, Serves, Supplies, Fits, Tickable, ProgressedResult, GameEnded, MovesPlayed,
           AllReset, MovesOf, StatesOfPlayers, State, Valid, GameRepr, GameValue, AllScored;
      var result;
      ok, result := PlayMoves(choice);
      if !ok {
        return false, None;
      }
      if result == GameOver {
        ok := GameEnd(choice.now);
        return ok, None;
      } else if result.Rank() >= AdvanceLevel.Rank() {
        ResetPlayers();
        return true, Some(cfg.countdown);
      }
      return true, Some(0);
    }

    /** Take the players' turns and play them. */
    method PlayMoves(choice: Choice) returns (ok: bool, result: TickResult)
      requires Valid() && State().game.Some? && Tickable(State().game.value, State().scorer)
      requires Supplies(choice, State().game.value, MovesOf(State().players), State().scorer)
      modifies this`log, players, scorer, GameRepr()
      ensures ok <==> old(Fits(State().game.value, MovesOf(State().players), State().scorer))
      ensures players == old(players)
      ensures ok ==> Valid() && State() == old(MovesPlayed(State(), choice))
      ensures ok ==> result == old(ProgressedResult(State().game.value.level, MovesOf(State().players), State().scorer))
    {
      hide Tickable, Serves, Fits, GameTicked, Announced, TickedScores, ProgressedResult, AllDequeued, MovesOf,
           StatesOfPlayers, State, Valid, GameRepr, GameValue;
      var moves := TakeTurns();
      SendToAll([TickMessage(moves)]);
      var announced;
      ok, result, announced := TickGame(moves, choice);
      if ok {
        SendToAll(announced);
      }
    }

    /** A pause asked for cancels a countdown; without one, the game rests. */
    method NoticePause(left: nat) returns (countdown: nat, rests: bool)
      requires Valid()
      modifies this`pausing, this`paused
      ensures Valid() && GameRepr() == old(GameRepr())
      ensures
        var st := old(State());
        && rests == (st.pausing && left == 0)
        && State() == st.(pausing := false, paused := st.paused || rests)
        && countdown == if st.pausing then 0 else left
    {
      hide StatesOfPlayers, ScoreTracker.Board;
      countdown, rests := left, false;
      if pausing {
        pausing := false;
        if countdown > 0 {
          countdown := 0;
        } else {
          paused := true;
          rests := true;
        }
      }
    }

    /** A tick of the timer with some countdown left. It fails where the program does not survive it. */
    method Tick(left: nat, choice: Choice) returns (ok: bool)
      requires Valid() && Sane(State()) && Draws(State(), left, choice)
      modifies this`log, this`connections, this`game, this`timers, this`pausing, this`paused, players, scorer,
               highScores, GameRepr()
      ensures ok <==> TickSafe(old(State()), left)
      ensures ok ==> Valid() && State() == old(TickOf(cfg, State(), left, choice))
    {
      ghost var st := State();
      hide PlaySafe, PlayDraws, Draws, Serves, MovesOf, Played, AllReset, TickSafe, TickServed, TickOf, Rearmed,
           CountedDown, StatesOfPlayers, State, Valid, GameRepr, GameValue;
      var countdown, rests := NoticePause(left);
      TickInSteps(cfg, st, left, choice);
      if rests {
        return true;
      }
      ok := Proceed(countdown, choice);
    }

    /** The tick of a game that does not rest. */
    method Proceed(countdown: nat, choice: Choice) returns (ok: bool)
      requires Valid() && Sane(State())
      requires countdown == 0 ==> PlayDraws(State().(timers := []), choice)
      modifies this`log, this`connections, this`game, this`timers, players, scorer, highScores, GameRepr()
      ensures
        var t := old(State()).(timers := []);
        ok <==> t.game.Some? && (countdown == 0 ==> PlaySafe(t))
      ensures ok ==> Valid()
      ensures ok ==>
        var t := old(State()).(timers := []);
        State() == if countdown == 0 then Played(cfg, t, choice) else CountedDown(t, countdown)
    {
      hide PlaySafe, PlayDraws, Serves, MovesOf, Played, AllReset, CountedDown, StatesOfPlayers, State, Valid, GameRepr,
           GameValue;
      var there := CancelWaits();
      if !there {
        return false;
      }
      if countdown > 0 {
        CountDown(countdown);
        return true;
      }
      ok := PlayOn(choice);
    }

    /** Set the timer anew, with the interval of the game, if there is one. */
    method CancelWaits() returns (there: bool)
      requires Valid()
      modifies this`timers
      ensures Valid() && GameRepr() == old(GameRepr()) && State() == old(State()).(timers := [])
      ensures there <==> State().game.Some?
    {
      hide StatesOfPlayers, ScoreTracker.Board, Ordered;
      timers := [];
      there := game != null;
    }

    method CountDown(countdown: nat)
      requires Valid() && countdown > 0
      modifies this`log, this`timers, players
      ensures Valid()
      ensures State() == CountedDown(old(State()), countdown)
    {
      hide AllReset, StatesOfPlayers, State, Valid, GameRepr, GameValue;
      SendToAll([Countdown(countdown)]);
      ResetPlayers();
      Arm(countdown - 1);
    }

    method PlayOn(choice: Choice) returns (ok: bool)
      requires Valid() && State().game.Some? && Tickable(State().game.value, State().scorer)
      requires PlayDraws(State(), choice)
      modifies this`log, this`connections, this`game, this`timers, players, scorer, highScores, GameRepr()
      ensures ok <==> PlaySafe(old(State()))
      ensures ok ==> Valid() && State() == old(Played(cfg, State(), choice))
    {
      hide PlaySafe, PlayDraws, Serves, MovesOf, Played, StatesOfPlayers, State, Valid, GameRepr, GameValue, Tickable;
      var next;
      ok, next := Play(choice);
      if ok && next.Some? {
        Arm(next.value);
      }
    }

    /** Wait for the next tick. */
    method Arm(countdown: nat)
      requires Valid()
      modifies this`timers
      ensures Valid() && State() == Rearmed(old(State()), Some(countdown))
    {
      hide StatesOfPlayers, ScoreTracker.Board;
      timers := timers + [countdown];
    }

    // -------------------------------------------------------------- the start of a game

    /** Enter all players into the empty scorer and throw away their turns. */
    method SeatPlayers()
      requires Valid() && game == null && State().scorer == NO_SCORES
      modifies players, scorer
      ensures Valid() && unchanged(this)
      ensures
        var st := old(State());
        State() == st.(scorer := FreshScores(Ids(st.players), cfg.settings.startLives),
          players := AllReset(st.players))
    {
      hide FreshScores, StatesOfPlayers, Ids, AllReset, ScoreTracker.Board;
      Seat(players, scorer, cfg.settings.startLives);
    }

    method PlayerIds() returns (ids: seq<PlayerId>)
      ensures ids == Ids(StatesOfPlayers(players))
    {
      ids := [];
      for i := 0 to |players|
        invariant ids == Ids(StatesOfPlayers(players))[..i]
      {
        ids := ids + [players[i].id];
      }
    }

    /** Make the game and start its first level. */
    method MakeGame(choice: Choice) returns (ok: bool, announced: seq<Message>)
      requires Valid() && game == null && Suits(cfg.levels, cfg.settings, Ids(State().players))
      requires StartFits(cfg, State()) ==> StartServed(cfg, State(), choice)
      modifies this`game
      ensures ok <==> StartFits(cfg, old(State()))
      ensures ok ==> Valid() && fresh(GameRepr())
      ensures ok ==>
        var st := old(State());
        var g := GameModel.Started(cfg.levels, cfg.settings, Ids(st.players), cfg.settings.startLevel, choice);
        State() == st.(game := Some(g)) && announced == Announcement(g.level)
    {
      hide GameModel.Started, Suits, CanStart, EnoughStarts, StatesOfPlayers, ScoreTracker.Board, Announcement, Ids,
           Ordered;
      ghost var st := State();
      var ids := PlayerIds();
      var g;
      g, announced := NewGame(cfg, ids, choice);
      assert State() == st;
      hide State, Valid, GameRepr, GameValue;
      if g == null {
        return false, announced;
      }
      Install(g);
      return true, announced;
    }

    method Install(g: Game)
      requires Valid() && game == null && g.Valid()
      modifies this`game
      ensures Valid() && GameRepr() == old(g.Repr())
      ensures State() == old(State()).(game := Some(old(g.State())))
    {
      hide StatesOfPlayers, ScoreTracker.Board, Ordered;
      game := g;
    }

    /** A game starts: the clients hear of it, the players are seated, and the first level is set up,
        which fails if it has too few starts. */
    method Begin(choice: Choice) returns (ok: bool)
      requires Valid() && game == null && State().scorer == NO_SCORES
      requires Suits(cfg.levels, cfg.settings, Ids(State().players))
      requires StartFits(cfg, State()) ==> StartServed(cfg, State(), choice)
      modifies this`log, this`game, players, scorer
      ensures ok <==> StartFits(cfg, old(State()))
      ensures ok ==> Valid() && fresh(GameRepr()) && State() == old(GameBegun(cfg, State(), choice))
      ensures players == old(players)
    {
      ghost var st := State();
      SeatedFits(cfg, st, choice);
      if StartFits(cfg, st) {
        BegunInSteps(cfg, st, choice);
      }
      hide StartServed, StartFits, Suits, GameModel.Started, GameBegun, AllReset, FreshScores, Ids, StatesOfPlayers,
           State, Valid, GameRepr, GameValue, Announcement;
      SendToAll([GameStart(cfg.settings)]);
      SeatPlayers();
      var announced;
      ok, announced := MakeGame(choice);
      if ok {
        SendToAll(announced);
      }
    }

    /** Start a game if there is none, everybody is ready and there is somebody to play. */
    method CheckForGameStart(starting: Choice, ticking: Choice) returns (ok: bool)
      requires Valid() && WellSet(cfg) && Sane(State()) && StartDraws(cfg, State(), starting, ticking)
      modifies this`log, this`connections, this`game, this`timers, this`pausing, this`paused, players, scorer,
               highScores
      ensures ok <==> StartSurvives(cfg, old(State()), starting, ticking)
      ensures ok ==> Valid() && State() == old(StartChecked(cfg, State(), starting, ticking))
    {
      hide StartFits, StartServed, StartSafe, TickServed, Draws, GameBegun, TickOf, WellSet, StatesOfPlayers;
      if game != null || connections == [] || players == [] {
        return true;
      }
      var i := 0;
      while i < |connections| && connections[i].ready
        invariant 0 <= i <= |connections| && forall k :: 0 <= k < i ==> connections[k].ready
      {
        i := i + 1;
      }
      if i < |connections| {
        return true;
      }
      ok := BeginAndTick(starting, ticking);
    }

    method BeginAndTick(starting: Choice, ticking: Choice) returns (ok: bool)
      requires Valid() && WellSet(cfg) && game == null && State().scorer == NO_SCORES && WillStart(State())
      requires StartDraws(cfg, State(), starting, ticking)
      modifies this`log, this`connections, this`game, this`timers, this`pausing, this`paused, players, scorer,
               highScores
      ensures ok <==> StartSurvives(cfg, old(State()), starting, ticking)
      ensures ok ==> Valid()
      ensures ok ==> State() == old(TickOf(cfg, GameBegun(cfg, State(), starting), cfg.countdown, ticking))
    {
      ghost var st := State();
      StartInSteps(cfg, st, starting, ticking);
      hide StartServed, StartFits, StartSafe, StartDraws, StartSurvives, Suits, GameBegun, TickOf, TickSafe, TickServed,
           Draws, Sane, WillStart, Ids, StatesOfPlayers, State, Valid, GameRepr, GameValue;
      ok := Begin(starting);
      if ok {
        ok := Tick(cfg.countdown, ticking);
      }
    }

    // -------------------------------------------------------------- events

    /** A client connects; during a game it is turned away. */
    method AddConnection()
      requires Valid()
      modifies this`connections, this`nextClient
      ensures Valid() && State() == old(Happens(cfg, State(), Connect))
    {
      if game != null {
        return;
      }
      connections := connections + [Connection(nextClient, false)];
      nextClient := nextClient + 1;
    }

    /** A player of a client joins, unless the name is taken. */
    method Join(client: ClientId, name: string)
      requires Valid()
      modifies this`players, this`nextPlayer, this`log
      ensures Valid() && State() == old(Joined(State(), client, name))
      ensures forall i :: 0 <= i < |players| ==> players[i] in old(players) || fresh(players[i])
    {
      hide StatesOfPlayers, State, Valid, GameRepr, GameValue;
      var taken := NameTaken(name);
      if taken {
        UseUpId();
      } else {
        Admit(client, name);
      }
    }

    /** An id is used up even if its player does not join. */
    method UseUpId()
      requires Valid()
      modifies this`nextPlayer
      ensures Valid() && State() == old(State()).(nextPlayer := old(State()).nextPlayer + 1)
    {
      hide ScoreTracker.Board, StatesOfPlayers, Ordered;
      nextPlayer := nextPlayer + 1;
    }

    method NameTaken(name: string) returns (taken: bool)
      requires Valid()
      ensures Valid() && State() == old(State())
      ensures taken <==> exists i :: 0 <= i < |State().players| && State().players[i].name == name
    {
      ghost var states := StatesOfPlayers(players);
      for i := 0 to |players|
        invariant forall k :: 0 <= k < i ==> players[k].name != name
      {
        if players[i].name == name {
          assert State().players[i] == states[i] && states[i].name == name;
          return true;
        }
      }
      return false;
    }

    method Admit(client: ClientId, name: string)
      requires Valid()
      modifies this`players, this`nextPlayer, this`log
      ensures Valid()
      ensures
        var st := old(State());
        State() == st.(players := st.players + [PlayerState(st.nextPlayer, name, client, NO_TURNS)],
                       nextPlayer := st.nextPlayer + 1,
                       log := st.log + [PlayerAdded(st.nextPlayer, name)])
      ensures forall i :: 0 <= i < |players| ==> players[i] in old(players) || fresh(players[i])
    {
      hide ScoreTracker.Board, Ordered, HighScoreManager.Valid;
      var player := new RemotePlayer(nextPlayer, name, client);
      nextPlayer := nextPlayer + 1;
      players := players + [player];
      log := log + [PlayerAdded(player.id, player.name)];
    }

    method AddPlayer(client: ClientId, name: string, starting: Choice, ticking: Choice) returns (ok: bool)
      requires Valid() && WellSet(cfg) && Sane(State())
      requires StartDraws(cfg, Joined(State(), client, name), starting, ticking)
      modifies this, players, scorer, highScores
      ensures ok <==> StartSurvives(cfg, old(Joined(State(), client, name)), starting, ticking)
      ensures ok ==> Valid() && State() == old(StartChecked(cfg, Joined(State(), client, name), starting, ticking))
    {
      hide WellSet, StartDraws, StartSurvives, StartChecked, StatesOfPlayers, ScoreTracker.Board, State, Valid,
           Tickable;
      Join(client, name);
      ok := CheckForGameStart(starting, ticking);
    }

    method SetReadiness(client: ClientId, ready: bool, starting: Choice, ticking: Choice) returns (ok: bool)
      requires Valid() && WellSet(cfg) && Sane(State())
      requires StartDraws(cfg, ReadinessSet(State(), client, ready), starting, ticking)
      modifies this`log, this`connections, this`game, this`timers, this`pausing, this`paused, players, scorer,
               highScores
      ensures ok <==> StartSurvives(cfg, old(ReadinessSet(State(), client, ready)), starting, ticking)
      ensures ok ==> Valid()
      ensures ok ==> State() == old(StartChecked(cfg, ReadinessSet(State(), client, ready), starting, ticking))
    {
      hide WellSet, StartDraws, StartSurvives, StartChecked, StatesOfPlayers, ScoreTracker.Board, State, Valid,
           Tickable;
      MarkReadiness(client, ready);
      ok := CheckForGameStart(starting, ticking);
    }

    method MarkReadiness(client: ClientId, ready: bool)
      requires Valid()
      modifies this`connections, this`log
      ensures Valid() && State() == old(ReadinessSet(State(), client, ready))
    {
      hide StatesOfPlayers, ScoreTracker.Board;
      for i := 0 to |connections|
        invariant |connections| == |old(connections)| && log == old(log)
        invariant forall k :: 0 <= k < i ==> connections[k] == WithReadiness(old(connections), client, ready)[k]
        invariant forall k :: i <= k < |connections| ==> connections[k] == old(connections)[k]
      {
        if connections[i].id == client {
          connections := connections[i := Connection(client, ready)];
        }
      }
      assert connections == WithReadiness(old(connections), client, ready);
      log := log + [UpdateReadiness(client, ready)];
    }

    /** A client leaves with its players. The game ends with the last client. */
    method DeleteConnection(client: ClientId)
      requires Valid()
      modifies this`players, this`connections, this`game, this`timers, scorer
      ensures Valid() && State() == old(Departed(State(), client))
    {
      hide WithoutClient, WithoutConnection, StatesOfPlayers;
      RemovePlayers(client);
      RemoveConnection(client);
      if connections == [] && game != null {
        DropGame();
      }
    }

    method DropGame()
      requires Valid()
      modifies this`game, this`timers, scorer
      ensures Valid() && State() == old(State()).(scorer := NO_SCORES, game := None, timers := [])
    {
      hide StatesOfPlayers, Ordered;
      Abandon();
      timers := [];
    }

    method RemovePlayers(client: ClientId)
      requires Valid()
      modifies this`players
      ensures Valid() && State() == old(State()).(players := WithoutClient(old(State()).players, client))
    {
      hide WithoutClient, ScoreTracker.Board;
      players := PlayersWithout(players, client);
    }

    method RemoveConnection(client: ClientId)
      requires Valid()
      modifies this`connections
      ensures Valid() && State() == old(State()).(connections := WithoutConnection(old(State()).connections, client))
    {
      hide StatesOfPlayers, ScoreTracker.Board;
      var kept := [];
      assert WithoutConnection(connections[|connections|..], client) == [];
      for i := |connections| downto 0
        invariant kept == WithoutConnection(connections[i..], client)
      {
        assert connections[i..] == [connections[i]] + connections[i + 1..];
        if connections[i].id != client {
          kept := [connections[i]] + kept;
        }
      }
      assert connections[0..] == connections;
      connections := kept;
    }

    /** The player with an id, if it belongs to a client. */
    method Find(client: ClientId, id: PlayerId) returns (k: Option<nat>)
      requires Valid()
      ensures k.Some? <==> Obeys(State(), client, id)
      ensures k.Some? ==> k.value < |players| && players[k.value].id == id && players[k.value].client == client
    {
      ghost var states := StatesOfPlayers(players);
      var i := 0;
      while i < |players| && players[i].id != id
        invariant 0 <= i <= |players| && forall k :: 0 <= k < i ==> players[k].id != id
      {
        i := i + 1;
      }
      if i == |players| {
        return None;
      }
      if players[i].client != client {
        assert forall k :: 0 <= k < |players| && states[k].id == id ==> k == i;
        return None;
      }
      assert Commands(State(), client, i, id);
      return Some(i);
    }

    /** A client sends a turn for a player. */
    method TurnPlayer(client: ClientId, id: PlayerId, direction: Direction)
      requires Valid()
      modifies players
      ensures Valid()
      ensures
        var st := old(State());
        State() == if Obeys(st, client, id) then st.(players := Turned(st.players, id, direction)) else st
    {
      hide Obeys, StatesOfPlayers, Turned;
      var k := Find(client, id);
      if k.Some? {
        QueueTurn(k.value, direction);
      }
    }

    method QueueTurn(k: nat, direction: Direction)
      requires Valid() && k < |players|
      modifies players
      ensures Valid() && State() == old(State()).(players := Turned(old(State()).players, players[k].id, direction))
    {
      hide StatesOfPlayers, Turned;
      TurnOne(players, k, direction);
    }

    /** A client sends a pause command for a player. */
    method Pause(client: ClientId, id: PlayerId, ticking: Choice) returns (ok: bool)
      requires Valid() && Sane(State())
      requires Obeys(State(), client, id) && State().paused ==> Draws(Unpaused(State()), 0, ticking)
      modifies this`log, this`connections, this`game, this`timers, this`pausing, this`paused, players, scorer,
               highScores, GameRepr()
      ensures
        var st := old(State());
        ok <==> (Obeys(st, client, id) && st.paused ==> TickSafe(Unpaused(st), 0))
      ensures ok ==> Valid()
      ensures ok ==>
        var st := old(State());
        State() == if !Obeys(st, client, id) then st
                   else if st.paused then TickOf(cfg, Unpaused(st), 0, ticking) else st.(pausing := true)
    {
      hide Obeys, TickSafe, TickServed, TickOf, Draws, Tickable, StatesOfPlayers, ScoreTracker.Board;
      var k := Find(client, id);
      if k.None? {
        return true;
      }
      ok := TogglePaused(ticking);
    }

    method TogglePaused(ticking: Choice) returns (ok: bool)
      requires Valid() && Sane(State())
      requires State().paused ==> Draws(Unpaused(State()), 0, ticking)
      modifies this`log, this`connections, this`game, this`timers, this`pausing, this`paused, players, scorer,
               highScores, GameRepr()
      ensures
        var st := old(State());
        ok <==> (st.paused ==> TickSafe(Unpaused(st), 0))
      ensures ok ==> Valid()
      ensures ok ==>
        var st := old(State());
        State() == if st.paused then TickOf(cfg, Unpaused(st), 0, ticking) else st.(pausing := true)
    {
      hide TickSafe, TickServed, TickOf, Draws, Tickable, StatesOfPlayers, ScoreTracker.Board;
      if paused {
        Unpause();
        ok := Tick(0, ticking);
      } else {
        pausing := true;
        ok := true;
      }
    }

    method Unpause()
      requires Valid()
      modifies this`paused, players
      ensures Valid() && GameRepr() == old(GameRepr()) && players == old(players) && State() == Unpaused(old(State()))
    {
      hide AllReset, StatesOfPlayers, State, Valid, GameRepr, GameValue;
      ClearPaused();
      ResetPlayers();
    }

    method ClearPaused()
      requires Valid()
      modifies this`paused
      ensures Valid() && GameRepr() == old(GameRepr()) && State() == old(State()).(paused := false)
    {
      hide StatesOfPlayers, ScoreTracker.Board;
      paused := false;
    }

    /** The first of the pending waits ends. */
    method TimerFires(ticking: Choice) returns (ok: bool)
      requires Valid() && Sane(State()) && timers != [] && Draws(State(), timers[0], ticking)
      modifies this`log, this`connections, this`game, this`timers, this`pausing, this`paused, players, scorer,
               highScores, GameRepr()
      ensures ok <==> TickSafe(old(State()), old(timers[0]))
      ensures ok ==> Valid()
      ensures ok ==>
        var st := old(State());
        st.timers != [] && TickSafe(st.(timers := st.timers[1..]), st.timers[0])
        && TickServed(st.(timers := st.timers[1..]), st.timers[0], ticking)
        && State() == TickOf(cfg, st.(timers := st.timers[1..]), st.timers[0], ticking)
    {
      WaitsDoNotMatter(State(), timers[0], ticking);
      hide TickSafe, TickServed, TickOf, Draws, Tickable, StatesOfPlayers, ScoreTracker.Board;
      var countdown := Disarm();
      ok := Tick(countdown, ticking);
    }

    method Disarm() returns (countdown: nat)
      requires Valid() && timers != []
      modifies this`timers
      ensures Valid() && GameRepr() == old(GameRepr())
      ensures
        var st := old(State());
        st.timers != [] && countdown == st.timers[0] && State() == st.(timers := st.timers[1..])
    {
      hide StatesOfPlayers, ScoreTracker.Board;
      countdown := timers[0];
      timers := timers[1..];
    }

    // -------------------------------------------------------------- everything

    /** Whatever the world allows: the object survives exactly what the state machine survives, and then
        goes through the same states. */
    method Handle(e: Event) returns (ok: bool)
      requires Valid() && WellSet(cfg) && Sane(State()) && Allowed(cfg, State(), e)
      modifies this, players, scorer, highScores, GameRepr()
      ensures ok <==> Survives(cfg, old(State()), e)
      ensures ok ==> Valid() && State() == old(Happens(cfg, State(), e))
    {
      hide WellSet, Sane, StartDraws, StartSurvives, StartChecked, TickSafe, TickServed, TickOf, Draws, Obeys, Joined,
           ReadinessSet, Departed, Turned;
      ok := true;
      match e {
        case Connect => AddConnection();
        case Disconnect(client) => DeleteConnection(client);
        case AddPlayer(client, name, starting, ticking) => ok := AddPlayer(client, name, starting, ticking);
        case SetReadiness(client, ready, starting, ticking) => ok := SetReadiness(client, ready, starting, ticking);
        case TurnCommand(client, player, direction) => TurnPlayer(client, player, direction);
        case PauseCommand(client, player, ticking) => ok := Pause(client, player, ticking);
        case TimerFires(ticking) => ok := TimerFires(ticking);
      }
    }
  }
}
