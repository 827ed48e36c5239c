/** What becomes of the turns players ask for: in every run of the server, every turn that a tick takes
    after the first one since a reset changes the direction of the snake. */
module TurnRuns {
  import opened Geometry
  import opened Definitions
  import opened Boards
  import opened Scores
  import opened HighScores
  import opened Snakes
  import opened LevelModel
  import opened GameModel
  import opened TurnQueues
  import opened ServerModel
  import opened ServerInvariants
  import opened ServerSurvival

  // ---------------------------------------------------------------- the queue of one player

  /** The turns that the player with an id has asked for. */
  function QueueOf(players: seq<PlayerState>, id: PlayerId): TurnQueue {
    if players == [] then NO_TURNS
    else
      var last := players[|players| - 1];
      if last.id == id then last.turns else QueueOf(players[..|players| - 1], id)
  }

  predicate AllDiffer(players: seq<PlayerState>) {
    forall i, j :: 0 <= i < j < |players| ==> players[i].id != players[j].id
  }

  lemma {:induction false} QueueOfMember(players: seq<PlayerState>, i: nat)
    requires AllDiffer(players) && i < |players|
    ensures QueueOf(players, players[i].id) == players[i].turns
  {
    if i < |players| - 1 {
      QueueOfMember(players[..|players| - 1], i);
    }
  }

  lemma {:induction false} QueueOfNobody(players: seq<PlayerState>, id: PlayerId)
    requires forall i :: 0 <= i < |players| ==> players[i].id != id
    ensures QueueOf(players, id) == NO_TURNS
  {
    if players != [] {
      QueueOfNobody(players[..|players| - 1], id);
    }
  }

  lemma {:induction false} QueueReset(players: seq<PlayerState>, id: PlayerId)
    ensures QueueOf(AllReset(players), id) == NO_TURNS
  {
    if players != [] {
      var n := |players| - 1;
      QueueReset(players[..n], id);
      assert AllReset(players)[..n] == AllReset(players[..n]);
    }
  }

  lemma {:induction false} QueueDequeued(players: seq<PlayerState>, id: PlayerId)
    ensures QueueOf(AllDequeued(players), id) == QueueOf(players, id).Rest()
  {
    if players != [] {
      var n := |players| - 1;
      QueueDequeued(players[..n], id);
      assert AllDequeued(players)[..n] == AllDequeued(players[..n]);
    }
  }

  predicate Present(players: seq<PlayerState>, id: PlayerId) {
    exists i :: 0 <= i < |players| && players[i].id == id
  }

  lemma {:induction false} QueueTurned(players: seq<PlayerState>, player: PlayerId, d: Direction, id: PlayerId)
    ensures
      QueueOf(Turned(players, player, d), id)
      == if id == player && Present(players, id) then QueueOf(players, id).Queue(d) else QueueOf(players, id)
  {
    if players != [] {
      var n := |players| - 1;
      QueueTurned(players[..n], player, d, id);
      PresentOrLast(players, id);
      hide Present;
      assert Turned(players, player, d)[..n] == Turned(players[..n], player, d);
    }
  }

  lemma {:induction false} PresentOrLast(players: seq<PlayerState>, id: PlayerId)
    requires players != []
    ensures
      var n := |players| - 1;
      Present(players, id) <==> players[n].id == id || Present(players[..n], id)
  {
    var n := |players| - 1;
    assert players == players[..n] + [players[n]];
  }

  lemma {:induction false} QueueOfLeaver(players: seq<PlayerState>, client: ClientId, id: PlayerId)
    requires AllDiffer(players)
    ensures
      var rest := WithoutClient(players, client);
      QueueOf(rest, id) == if Present(rest, id) then QueueOf(players, id) else NO_TURNS
  {
    hide QueueOf, WithoutClient;
    RemovingAClient(players, client);
    var rest := WithoutClient(players, client);
    if k :| 0 <= k < |rest| && rest[k].id == id {
      var i :| 0 <= i < |players| && players[i] == rest[k];
      QueueOfMember(players, i);
      QueueOfMember(rest, k);
    } else {
      QueueOfNobody(rest, id);
    }
  }

  /** The moves of a tick hold the front of every queue. */
  lemma {:induction false} MoveOfPlayer(players: seq<PlayerState>, id: PlayerId)
    requires AllDiffer(players)
    ensures
      var front, moves := QueueOf(players, id).Front(), MovesOf(players);
      if front.Some? then id in moves && moves[id] == front.value else id !in moves
  {
    if players != [] {
      var n := |players| - 1;
      MoveOfPlayer(players[..n], id);
      if players[n].id == id {
        QueueOfNobody(players[..n], id);
      }
    }
  }

  // ---------------------------------------------------------------- the snake it steers

  /** The snake of the player, if there is one, moves along the axis of d. */
  predicate MovesAlong(l: LevelState, id: PlayerId, d: Direction) {
    forall i :: 0 <= i < |l.snakes| && l.snakes[i].player == id ==> l.snakes[i].direction.SameAxis(d)
  }

  /** The turns taken and waiting are aligned, and the snake moves along the axis of the last taken one. */
  predicate Steered(st: ServerState, id: PlayerId, taken: seq<Direction>) {
    && Aligned(taken, QueueOf(st.players, id))
    && (taken != [] && st.game.Some? ==> MovesAlong(st.game.value.level, id, taken[|taken| - 1]))
  }

  /** A tick leaves every snake with the direction its move has given it. */
  lemma {:induction false} DirectionsTicked(settings: GameSettings, l: LevelState, moves: Moves)
    requires l.Ready()
    ensures
      var snakes := Ticked(settings, l, moves).snakes;
      && |snakes| == |l.snakes|
      && forall i :: 0 <= i < |snakes| ==>
           snakes[i].player == l.snakes[i].player && snakes[i].direction == Redirected(l.snakes[i], moves).direction
  {
    TurnKeepsReady(l, moves);
    HeadsKeepReady(settings, l.TurnPhase(moves));
    hide LevelState.Fates, LevelState.Heads, Paint, Claimed, Vacated, LevelState.Ready, Fate;
  }

  /** Whether or not a new number is placed: as long as no level starts, the directions stay. */
  lemma {:induction false} DirectionsAfterTick(g: GameState, moves: Moves, sb: ScoreBoard, choice: Choice)
    requires Tickable(g, sb) && Serves(choice, g, moves, sb) && NextLevelId(g, moves, sb).None?
    ensures
      var snakes := GameTicked(g, moves, sb, choice).level.snakes;
      && |snakes| == |g.level.snakes|
      && forall i :: 0 <= i < |snakes| ==>
           && snakes[i].player == g.level.snakes[i].player
           && snakes[i].direction == Redirected(g.level.snakes[i], moves).direction
  {
    hide Suits, Ticked, CanStart, LevelState.Placeable, Redirected, LevelState.Drawn, ProgressedResult,
         LevelState.Ready, LevelState.NumberFits, LevelState.Scorable;
    TickableIsReady(g, sb);
    DirectionsTicked(g.settings, g.level, moves);
  }

  /** Taking the front of the queue steers the snake along its axis. */
  lemma {:induction false} TakenTurnSteers(players: seq<PlayerState>, l: LevelState, m: LevelState, id: PlayerId,
                                           taken: seq<Direction>)
    requires AllDiffer(players) && Aligned(taken, QueueOf(players, id))
    requires taken != [] ==> MovesAlong(l, id, taken[|taken| - 1])
    requires |m.snakes| == |l.snakes|
    requires forall i :: 0 <= i < |l.snakes| ==>
      && m.snakes[i].player == l.snakes[i].player
      && m.snakes[i].direction == Redirected(l.snakes[i], MovesOf(players)).direction
    ensures
      var next := TakenBy(taken, QueueOf(players, id), QueueOf(players, id).Rest());
      next != [] ==> MovesAlong(m, id, next[|next| - 1])
  {
    hide MovesOf, QueueOf;
    MoveOfPlayer(players, id);
    TakingAligns(taken, QueueOf(players, id));
  }

  // ---------------------------------------------------------------- ticks

  /** What a tick that plays makes of the queues and the game. */
  lemma {:induction false} QueuesPlayed(cfg: Config, st: ServerState, choice: Choice)
    requires PlaySafe(st) && Serves(choice, st.game.value, MovesOf(st.players), st.scorer)
    ensures st.game.value.level.Ready()
    ensures
      var g, moves, s := st.game.value, MovesOf(st.players), Played(cfg, st, choice);
      if NextLevelId(g, moves, st.scorer).Some? then s.players == AllReset(AllDequeued(st.players))
      else
        && s.players == AllDequeued(st.players)
        && (s.game.Some? ==> s.game.value == GameTicked(g, moves, st.scorer, choice))
  {
    hide Tickable, Serves, MovesOf, GameTicked, Announced, TickedScores, ProgressedResult, Fits, AllScored, FinalScore,
         WithScore, ReportOn, AllReset, AllDequeued, Unreadied, AllUnready;
    TickableIsReady(st.game.value, st.scorer);
  }

  lemma {:induction false} PlayingSteers(cfg: Config, st: ServerState, choice: Choice, id: PlayerId,
                                         taken: seq<Direction>)
    requires PlaySafe(st) && Serves(choice, st.game.value, MovesOf(st.players), st.scorer)
    requires AllDiffer(st.players) && Steered(st, id, taken)
    ensures
      var s := Played(cfg, st, choice);
      Steered(s, id, TakenBy(taken, QueueOf(st.players, id), QueueOf(s.players, id)))
  {
    hide Tickable, Serves, MovesOf, QueueOf, Played, NextLevelId, GameTicked, MovesAlong, Aligned, AllDiffer, Fits,
         AllScored, AllReset, AllDequeued, Redirected, Ends;
    var g, moves := st.game.value, MovesOf(st.players);
    QueuesPlayed(cfg, st, choice);
    QueueDequeued(st.players, id);
    QueueReset(AllDequeued(st.players), id);
    TakingAligns(taken, QueueOf(st.players, id));
    NothingAligned();
    if NextLevelId(g, moves, st.scorer).None? {
      DirectionsAfterTick(g, moves, st.scorer, choice);
      TakenTurnSteers(st.players, g.level, GameTicked(g, moves, st.scorer, choice).level, id, taken);
    }
  }

  lemma {:induction false} NothingAligned()
    ensures Aligned([], NO_TURNS)
  {
  }

  lemma {:induction false} TickingSteers(cfg: Config, st: ServerState, countdown: nat, choice: Choice, id: PlayerId,
                                         taken: seq<Direction>)
    requires TickSafe(st, countdown) && TickServed(st, countdown, choice)
    requires AllDiffer(st.players) && Steered(st, id, taken)
    ensures
      var s := TickOf(cfg, st, countdown, choice);
      Steered(s, id, TakenBy(taken, QueueOf(st.players, id), QueueOf(s.players, id)))
  {
    hide PlaySafe, Serves, MovesOf, QueueOf, Played, MovesAlong, Aligned, AllDiffer;
    NothingAligned();
    QueueReset(st.players, id);
    if Plays(st, countdown) {
      PlaySafeWhilePausing(st);
      PlayingSteers(cfg, st.(pausing := false, timers := []), choice, id, taken);
    } else if Rests(st, countdown) {
      NothingTaken(taken, QueueOf(st.players, id));
    }
  }

  lemma {:induction false} NothingTaken(taken: seq<Direction>, q: TurnQueue)
    requires Aligned(taken, q)
    ensures TakenBy(taken, q, q) == taken
  {
  }

  /** A tick takes nothing from queues that have been reset. */
  lemma {:induction false} TickAfterReset(cfg: Config, st: ServerState, countdown: nat, choice: Choice, id: PlayerId)
    requires TickSafe(st, countdown) && TickServed(st, countdown, choice) && QueueOf(st.players, id) == NO_TURNS
    ensures QueueOf(TickOf(cfg, st, countdown, choice).players, id) == NO_TURNS
  {
    hide PlaySafe, Serves, MovesOf, QueueOf, GameTicked, Announced, TickedScores, ProgressedResult, FinalScore,
         WithScore, ReportOn;
    QueueReset(st.players, id);
    QueueDequeued(st.players, id);
    QueueReset(AllDequeued(st.players), id);
  }

  lemma {:induction false} StartingSteers(cfg: Config, st: ServerState, starting: Choice, ticking: Choice, id: PlayerId,
                                          taken: seq<Direction>)
    requires StartDraws(cfg, st, starting, ticking) && StartSurvives(cfg, st, starting, ticking)
    requires AllDiffer(st.players) && Steered(st, id, taken)
    ensures
      var s := StartChecked(cfg, st, starting, ticking);
      Steered(s, id, TakenBy(taken, QueueOf(st.players, id), QueueOf(s.players, id)))
  {
    hide TickSafe, TickServed, WillStart, StartServed, TickOf, QueueOf, MovesAlong, Aligned;
    if WillStart(st) {
      var begun := GameBegun(cfg, st, starting);
      QueueReset(st.players, id);
      NothingAligned();
      TickAfterReset(cfg, begun, cfg.countdown, ticking, id);
      TickingSteers(cfg, begun, cfg.countdown, ticking, id, []);
    } else {
      NothingTaken(taken, QueueOf(st.players, id));
    }
  }

  // ---------------------------------------------------------------- every event

  lemma {:induction false} JoiningSteers(st: ServerState, client: ClientId, name: string, id: PlayerId,
                                         taken: seq<Direction>)
    requires DistinctPlayers(st) && Steered(st, id, taken)
    ensures
      var s := Joined(st, client, name);
      AllDiffer(s.players) && QueueOf(s.players, id) == QueueOf(st.players, id) && Steered(s, id, taken)
  {
    hide MovesAlong, Aligned;
    var s := Joined(st, client, name);
    if s.players != st.players {
      assert s.players[..|s.players| - 1] == st.players;
      if id == st.nextPlayer {
        QueueOfNobody(st.players, id);
      }
    }
  }

  lemma {:induction false} LeavingSteers(st: ServerState, client: ClientId, id: PlayerId, taken: seq<Direction>)
    requires AllDiffer(st.players) && Steered(st, id, taken)
    ensures
      var s := Departed(st, client);
      Steered(s, id, TakenBy(taken, QueueOf(st.players, id), QueueOf(s.players, id)))
  {
    hide MovesAlong, Aligned, QueueOf, AllDiffer, WithoutClient, WithoutConnection;
    QueueOfLeaver(st.players, client, id);
    NothingTaken(taken, QueueOf(st.players, id));
    NothingAligned();
  }

  lemma {:induction false} TurningSteers(st: ServerState, player: PlayerId, d: Direction, id: PlayerId,
                                         taken: seq<Direction>)
    requires Steered(st, id, taken)
    ensures
      var s := st.(players := Turned(st.players, player, d));
      Steered(s, id, TakenBy(taken, QueueOf(st.players, id), QueueOf(s.players, id)))
  {
    hide MovesAlong, Aligned, QueueOf;
    QueueTurned(st.players, player, d, id);
    QueueingAligns(taken, QueueOf(st.players, id), d);
    NothingTaken(taken, QueueOf(st.players, id));
  }

  lemma {:induction false} UnpausingSteers(cfg: Config, st: ServerState, choice: Choice, id: PlayerId,
                                           taken: seq<Direction>)
    requires TickSafe(Unpaused(st), 0) && TickServed(Unpaused(st), 0, choice)
    requires AllDiffer(st.players) && Steered(st, id, taken)
    ensures
      var s := TickOf(cfg, Unpaused(st), 0, choice);
      Steered(s, id, TakenBy(taken, QueueOf(st.players, id), QueueOf(s.players, id)))
  {
    hide TickSafe, TickServed, TickOf, QueueOf, MovesAlong, Aligned;
    QueueReset(st.players, id);
    NothingAligned();
    TickAfterReset(cfg, Unpaused(st), 0, choice, id);
    TickingSteers(cfg, Unpaused(st), 0, choice, id, []);
  }

  /** Every event keeps the snakes steered by the turns they have taken. */
  lemma {:induction false} EventSteers(cfg: Config, st: ServerState, e: Event, id: PlayerId, taken: seq<Direction>)
    requires CanHappen(cfg, st, e) && DistinctPlayers(st) && Steered(st, id, taken)
    ensures
      var s := Happens(cfg, st, e);
      Steered(s, id, TakenBy(taken, QueueOf(st.players, id), QueueOf(s.players, id)))
  {
    hide TickServed, TickSafe, StartServed, StartSafe, StartDraws, StartSurvives, StartChecked, TickOf, Joined, Turned,
         Departed, WillStart, QueueOf, MovesAlong, Aligned, Obeys;
    NothingTaken(taken, QueueOf(st.players, id));
    match e {
      case Connect =>
      case Disconnect(client) => LeavingSteers(st, client, id, taken);
      case AddPlayer(client, name, c, d) =>
        JoiningSteers(st, client, name, id, taken);
        StartingSteers(cfg, Joined(st, client, name), c, d, id, taken);
      case SetReadiness(client, ready, c, d) => StartingSteers(cfg, ReadinessSet(st, client, ready), c, d, id, taken);
      case TurnCommand(client, player, d) => TurningSteers(st, player, d, id, taken);
      case PauseCommand(client, player, c) =>
        if Obeys(st, client, player) && st.paused {
          UnpausingSteers(cfg, st, c, id, taken);
        }
      case TimerFires(c) =>
        TimersDoNotMatter(st, c);
        TickingSteers(cfg, st.(timers := st.timers[1..]), st.timers[0], c, id, taken);
    }
  }

  /** The turns that ticks have taken from the queue of a player since it was last reset, after a run. */
  ghost function TakenIn(cfg: Config, st: ServerState, events: seq<Event>, id: PlayerId,
                         taken: seq<Direction>): seq<Direction>
    requires Run(cfg, st, events)
    decreases |events|
  {
    hide CanHappen, Happens;
    if events == [] then taken
    else
      var s := Happens(cfg, st, events[0]);
      TakenIn(cfg, s, events[1..], id, TakenBy(taken, QueueOf(st.players, id), QueueOf(s.players, id)))
  }

  lemma {:induction false} RunSteers(cfg: Config, st: ServerState, events: seq<Event>, id: PlayerId,
                                     taken: seq<Direction>)
    requires Run(cfg, st, events) && Kept(cfg, st) && Steered(st, id, taken)
    ensures Steered(AfterAll(cfg, st, events), id, TakenIn(cfg, st, events, id, taken))
    ensures Kept(cfg, AfterAll(cfg, st, events))
    decreases |events|
  {
    hide CanHappen, Happens, Steered, GameKept, DistinctPlayers, QueueOf, TakenBy;
    if events != [] {
      EventKeeps(cfg, st, events[0]);
      EventSteers(cfg, st, events[0], id, taken);
      var s := Happens(cfg, st, events[0]);
      RunSteers(cfg, s, events[1..], id, TakenBy(taken, QueueOf(st.players, id), QueueOf(s.players, id)));
    }
  }

  lemma {:induction false} RunSteersFromIdle(cfg: Config, events: seq<Event>, id: PlayerId)
    requires cfg.settings.startLives >= 1 && Run(cfg, IDLE, events)
    ensures Steered(AfterAll(cfg, IDLE, events), id, TakenIn(cfg, IDLE, events, id, []))
    ensures Kept(cfg, AfterAll(cfg, IDLE, events))
  {
    hide Run, AfterAll, TakenIn;
    RunSteers(cfg, IDLE, events, id, []);
  }

  /** What the turn in front does to the snake. */
  lemma {:induction false} TurnOfTick(st: ServerState, id: PlayerId, taken: seq<Direction>, i: nat)
    requires st.game.Some? && AllDiffer(st.players) && Steered(st, id, taken)
    requires i < |st.game.value.level.snakes| && st.game.value.level.snakes[i].player == id
    ensures
      var q, l := QueueOf(st.players, id), st.game.value.level;
      var before, turned := l.snakes[i].direction, l.TurnPhase(MovesOf(st.players)).snakes[i].direction;
      && Perpendicular(taken + q.pending)
      && (if q.pending == [] || (taken == [] && before.SameAxis(q.pending[0])) then turned == before
          else turned == q.pending[0] != before)
  {
    hide QueueOf, MovesOf;
    var q := QueueOf(st.players, id);
    MoveOfPlayer(st.players, id);
    if taken != [] && q.pending != [] {
      NextIsPerpendicular(taken, q);
    }
  }

  /** The snake keeps the direction of its turn unless a level starts. */
  lemma {:induction false} DirectionStays(cfg: Config, st: ServerState, choice: Choice, i: nat)
    requires CanHappen(cfg, st, Event.TimerFires(choice)) && Plays(st, st.timers[0])
    requires i < |st.game.value.level.snakes|
    ensures
      var g, moves := st.game.value, MovesOf(st.players);
      var after := Happens(cfg, st, Event.TimerFires(choice)).game;
      && g.level.Ready()
      && (after.Some? && LevelAfter(g.levelId, ProgressedResult(g.level, moves, st.scorer)).None? ==>
            && i < |after.value.level.snakes|
            && after.value.level.snakes[i].direction == g.level.TurnPhase(moves).snakes[i].direction)
  {
    hide Tickable, Serves, MovesOf, Fits, AllScored, GameTicked, Announced, TickedScores, ProgressedResult, Redirected;
    var g, moves := st.game.value, MovesOf(st.players);
    TickableIsReady(g, st.scorer);
    if NextLevelId(g, moves, st.scorer).None? {
      DirectionsAfterTick(g, moves, st.scorer, choice);
    }
  }

  /** After every run of the server, and for every player with a snake: the turns taken since the last
      reset and those that wait are perpendicular to one another; and in a tick that plays, the one in
      front changes the direction of the snake. Only the first one after a reset does not if the snake
      already moves along its axis. The snake keeps its new direction unless a level starts. */
  lemma {:induction false} EveryLaterTurnTakesEffect(cfg: Config, events: seq<Event>, choice: Choice, id: PlayerId,
                                                     i: nat)
    requires cfg.settings.startLives >= 1 && Run(cfg, IDLE, events)
    requires
      var st := AfterAll(cfg, IDLE, events);
      && CanHappen(cfg, st, Event.TimerFires(choice)) && Plays(st, st.timers[0])
      && i < |st.game.value.level.snakes| && st.game.value.level.snakes[i].player == id
    ensures AfterAll(cfg, IDLE, events).game.value.level.Ready()
    ensures
      var st := AfterAll(cfg, IDLE, events);
      var q, taken := QueueOf(st.players, id), TakenIn(cfg, IDLE, events, id, []);
      var g, moves := st.game.value, MovesOf(st.players);
      var before, turned := g.level.snakes[i].direction, g.level.TurnPhase(moves).snakes[i].direction;
      var after := Happens(cfg, st, Event.TimerFires(choice)).game;
      && Perpendicular(taken + q.pending)
      && (if q.pending == [] || (taken == [] && before.SameAxis(q.pending[0])) then turned == before
          else turned == q.pending[0] != before)
      && (after.Some? && LevelAfter(g.levelId, ProgressedResult(g.level, moves, st.scorer)).None? ==>
            i < |after.value.level.snakes| && after.value.level.snakes[i].direction == turned)
  {
    hide Run, AfterAll, TakenIn, MovesOf, QueueOf, GameKept, Happens, Steered, Tickable, Fits, AllScored, Serves, Draws;
    var st := AfterAll(cfg, IDLE, events);
    RunSteersFromIdle(cfg, events, id);
    TurnOfTick(st, id, TakenIn(cfg, IDLE, events, id, []), i);
    DirectionStays(cfg, st, choice, i);
  }
}
