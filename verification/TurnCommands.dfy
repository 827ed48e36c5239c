/** From the commands clients send to the turns of the players: in every run of the server, the turns taken
    and waiting since the last reset are exactly the commands given since then, without those on the axis of
    the last one kept. */
module TurnCommands {
  import opened Geometry
  import opened Definitions
  import opened HighScores
  import opened Scores
  import opened LevelModel
  import opened GameModel
  import opened TurnQueues
  import opened ServerModel
  import opened ServerInvariants
  import opened ServerSurvival
  import opened TurnRuns

  // ---------------------------------------------------------------- commands

  /** All clients hear a countdown or the start of a level. */
  predicate Heralded(news: seq<Message>) {
    exists k :: 0 <= k < |news| && (news[k].Countdown? || news[k].LevelStart?)
  }

  /** The player belongs to the client. */
  predicate Owns(st: ServerState, client: ClientId, id: PlayerId) {
    exists i :: 0 <= i < |st.players| && st.players[i].id == id && st.players[i].client == client
  }

  /** Keys pressed so far are forgotten: a countdown or a level starts, or a pause ends. */
  ghost predicate Forgets(cfg: Config, st: ServerState, e: Event)
    requires CanHappen(cfg, st, e)
  {
    var s := Happens(cfg, st, e);
    || (e.PauseCommand? && st.paused && Owns(st, e.client, e.player))
    || (st.log <= s.log && Heralded(s.log[|st.log|..]))
  }

  /** The commands given for a player since the last reset, after one more event. */
  ghost function GivenBy(cfg: Config, st: ServerState, e: Event, id: PlayerId, given: seq<Direction>): seq<Direction>
    requires CanHappen(cfg, st, e)
  {
    if Forgets(cfg, st, e) || !Present(Happens(cfg, st, e).players, id) then []
    else if e.TurnCommand? && e.player == id && Owns(st, e.client, id) then given + [e.direction]
    else given
  }

  ghost function GivenIn(cfg: Config, st: ServerState, events: seq<Event>, id: PlayerId,
                         given: seq<Direction>): seq<Direction>
    requires Run(cfg, st, events)
    decreases |events|
  {
    hide CanHappen, Happens;
    if events == [] then given
    else GivenIn(cfg, Happens(cfg, st, events[0]), events[1..], id, GivenBy(cfg, st, events[0], id, given))
  }

  /** The commands that are kept: each one across the axis of the one kept before. */
  function Across(given: seq<Direction>): seq<Direction> {
    if given == [] then []
    else
      var before, d := Across(given[..|given| - 1]), given[|given| - 1];
      if before != [] && Vertical(before[|before| - 1]) == Vertical(d) then before else before + [d]
  }

  lemma {:induction false} OneMoreGiven(taken: seq<Direction>, q: TurnQueue, given: seq<Direction>, d: Direction)
    requires Aligned(taken, q) && taken + q.pending == Across(given)
    ensures taken + q.Queue(d).pending == Across(given + [d])
  {
    assert (given + [d])[..|given|] == given;
    var all := taken + q.pending;
    if all != [] {
      AxisOf(all[|all| - 1], d);
    }
    assert taken + (q.pending + [d]) == all + [d];
  }

  // ---------------------------------------------------------------- ticks

  lemma {:induction false} HeraldedInParts(a: seq<Message>, b: seq<Message>)
    ensures Heralded(a + b) <==> Heralded(a) || Heralded(b)
  {
    var c := a + b;
    assert forall k :: 0 <= k < |a| ==> c[k] == a[k];
    assert forall k :: 0 <= k < |b| ==> c[|a| + k] == b[k];
    assert forall k :: |a| <= k < |c| ==> c[k] == b[k - |a|];
  }

  lemma {:induction false} NoNews(log: seq<Message>)
    ensures !Heralded(log[|log|..])
  {
  }

  lemma {:induction false} CountdownIsHeralded(log: seq<Message>, count: nat)
    ensures Heralded((log + [Countdown(count)])[|log|..])
  {
    assert (log + [Countdown(count)])[|log|..][0] == Countdown(count);
  }

  /** What all clients hear of a tick that plays: the moves, what is announced, and the end of the game. */
  lemma {:induction false} PlayedLog(cfg: Config, st: ServerState, choice: Choice) returns (last: seq<Message>)
    requires PlaySafe(st) && Serves(choice, st.game.value, MovesOf(st.players), st.scorer)
    ensures
      var g, moves := st.game.value, MovesOf(st.players);
      Played(cfg, st, choice).log == st.log + ([TickMessage(moves)] + Announced(g, moves, st.scorer, choice)) + last
    ensures forall k :: 0 <= k < |last| ==> last[k].GameOverMessage? || last[k].UpdateReadiness?
  {
    hide Tickable, Serves, MovesOf, GameTicked, TickedScores, ProgressedResult, Fits, AllScored, FinalScore, WithScore,
         ReportOn, AllReset, AllDequeued, AllUnready, Announced;
    var g, moves := st.game.value, MovesOf(st.players);
    TickableIsReady(g, st.scorer);
    var told := st.log + ([TickMessage(moves)] + Announced(g, moves, st.scorer, choice));
    var log := Played(cfg, st, choice).log;
    last := log[|told|..];
  }

  lemma {:induction false} AnnouncedIsHeralded(g: GameState, moves: Moves, sb: ScoreBoard, choice: Choice)
    requires Tickable(g, sb) && Serves(choice, g, moves, sb)
    ensures g.level.Ready()
    ensures Heralded(Announced(g, moves, sb, choice)) <==> NextLevelId(g, moves, sb).Some?
  {
    hide Tickable, Serves, GameTicked, ProgressedResult, AsksForNumber;
    TickableIsReady(g, sb);
    var announced := Announced(g, moves, sb, choice);
    if NextLevelId(g, moves, sb).Some? {
      assert announced[0].LevelStart?;
    }
  }

  lemma {:induction false} NewsOfPlay(cfg: Config, st: ServerState, choice: Choice)
    requires PlaySafe(st) && Serves(choice, st.game.value, MovesOf(st.players), st.scorer)
    ensures st.game.value.level.Ready() && st.log <= Played(cfg, st, choice).log
    ensures Heralded(Played(cfg, st, choice).log[|st.log|..]) <==>
      NextLevelId(st.game.value, MovesOf(st.players), st.scorer).Some?
  {
    hide Tickable, Serves, MovesOf, Played, Announced, NextLevelId, Fits, AllScored, Ends;
    var g, moves := st.game.value, MovesOf(st.players);
    AnnouncedIsHeralded(g, moves, st.scorer, choice);
    var announced := Announced(g, moves, st.scorer, choice);
    var last := PlayedLog(cfg, st, choice);
    assert Played(cfg, st, choice).log[|st.log|..] == [TickMessage(moves)] + announced + last;
    HeraldedInParts([TickMessage(moves)] + announced, last);
    HeraldedInParts([TickMessage(moves)], announced);
  }

  /** A tick resets all queues if it is heralded, and takes at most the front of each if it is not. */
  lemma {:induction false} TickOnQueue(cfg: Config, st: ServerState, countdown: nat, choice: Choice, id: PlayerId)
    requires TickSafe(st, countdown) && TickServed(st, countdown, choice)
    ensures
      var s, q := TickOf(cfg, st, countdown, choice), QueueOf(st.players, id);
      && st.log <= s.log
      && if Heralded(s.log[|st.log|..]) then QueueOf(s.players, id) == NO_TURNS
         else QueueOf(s.players, id) == q || QueueOf(s.players, id) == q.Rest()
  {
    hide PlaySafe, Serves, MovesOf, QueueOf, Played, Heralded, AllReset, NextLevelId, AllDequeued;
    QueueReset(st.players, id);
    QueueDequeued(st.players, id);
    QueueReset(AllDequeued(st.players), id);
    if Plays(st, countdown) {
      PlaySafeWhilePausing(st);
      var t := st.(pausing := false, timers := []);
      NewsOfPlay(cfg, t, choice);
      QueuesPlayed(cfg, t, choice);
    } else if Rests(st, countdown) {
      NoNews(st.log);
    } else {
      CountdownIsHeralded(st.log, countdown);
    }
  }

  /** The start of a game is heralded and resets all queues. */
  lemma {:induction false} StartOnQueue(cfg: Config, st: ServerState, starting: Choice, ticking: Choice, id: PlayerId)
    requires StartDraws(cfg, st, starting, ticking) && StartSurvives(cfg, st, starting, ticking) && WillStart(st)
    ensures
      var s := StartChecked(cfg, st, starting, ticking);
      && st.log <= s.log && Heralded(s.log[|st.log|..]) && QueueOf(s.players, id) == NO_TURNS
  {
    hide TickSafe, TickServed, StartServed, TickOf, WillStart, QueueOf;
    var begun, s := GameBegun(cfg, st, starting), StartChecked(cfg, st, starting, ticking);
    QueueReset(st.players, id);
    TickAfterReset(cfg, begun, cfg.countdown, ticking, id);
    TickExtendsLog(cfg, begun, cfg.countdown, ticking);
    assert begun.log[|st.log| + 1].LevelStart?;
    assert s.log[|st.log|..][1].LevelStart?;
  }

  // ---------------------------------------------------------------- every event

  /** The queue of a player after an event, by what the event means for the player. */
  ghost predicate Follows(cfg: Config, st: ServerState, e: Event, id: PlayerId, s: ServerState)
    requires CanHappen(cfg, st, e)
  {
    var q, r := QueueOf(st.players, id), QueueOf(s.players, id);
    if Forgets(cfg, st, e) || !Present(s.players, id) then r == NO_TURNS
    else if e.TurnCommand? && e.player == id && Owns(st, e.client, id) then r == q.Queue(e.direction)
    else r == q || r == q.Rest()
  }

  lemma {:induction false} AbsentHasNoTurns(players: seq<PlayerState>, id: PlayerId)
    ensures !Present(players, id) ==> QueueOf(players, id) == NO_TURNS
  {
    if !Present(players, id) {
      QueueOfNobody(players, id);
    }
  }

  lemma {:induction false} OwnsIsObeys(st: ServerState, client: ClientId, id: PlayerId)
    ensures Owns(st, client, id) <==> Obeys(st, client, id)
    ensures Owns(st, client, id) ==> Present(st.players, id)
  {
    if Owns(st, client, id) {
      var i :| 0 <= i < |st.players| && st.players[i].id == id && st.players[i].client == client;
      assert Commands(st, client, i, id);
    }
  }

  lemma {:induction false} OthersKeepTheirTurns(st: ServerState, client: ClientId, player: PlayerId, d: Direction,
                                                id: PlayerId)
    requires DistinctPlayers(st)
    ensures
      var s := if Obeys(st, client, player) then st.(players := Turned(st.players, player, d)) else st;
      QueueOf(s.players, id)
      == if id == player && Owns(st, client, id) then QueueOf(st.players, id).Queue(d) else QueueOf(st.players, id)
  {
    hide QueueOf, Turned;
    OwnsIsObeys(st, client, player);
    QueueTurned(st.players, player, d, id);
  }

  /** A start that may or may not take place, after something that leaves the queue alone and is not heralded. */
  lemma {:induction false} MaybeStartOnQueue(cfg: Config, before: ServerState, st: ServerState, starting: Choice,
                                             ticking: Choice, id: PlayerId)
    requires StartDraws(cfg, st, starting, ticking) && StartSurvives(cfg, st, starting, ticking)
    requires before.log <= st.log && !Heralded(st.log[|before.log|..])
    requires QueueOf(st.players, id) == QueueOf(before.players, id)
    ensures
      var s := StartChecked(cfg, st, starting, ticking);
      && before.log <= s.log
      && QueueOf(s.players, id)
      == if Heralded(s.log[|before.log|..]) then NO_TURNS else QueueOf(before.players, id)
  {
    hide TickSafe, TickServed, StartServed, TickOf, WillStart, QueueOf, Heralded;
    if WillStart(st) {
      StartOnQueue(cfg, st, starting, ticking, id);
      var s := StartChecked(cfg, st, starting, ticking);
      assert s.log[|before.log|..] == st.log[|before.log|..] + s.log[|st.log|..];
      HeraldedInParts(st.log[|before.log|..], s.log[|st.log|..]);
    }
  }

  lemma {:induction false} JoiningOnQueue(st: ServerState, client: ClientId, name: string, id: PlayerId)
    requires DistinctPlayers(st)
    ensures
      var s := Joined(st, client, name);
      && st.log <= s.log && !Heralded(s.log[|st.log|..]) && QueueOf(s.players, id) == QueueOf(st.players, id)
  {
    var s := Joined(st, client, name);
    if s.players != st.players {
      assert s.players[..|s.players| - 1] == st.players;
      if id == st.nextPlayer {
        QueueOfNobody(st.players, id);
      }
    }
  }

  lemma {:induction false} ReadyingOnQueue(st: ServerState, client: ClientId, ready: bool)
    ensures
      var s := ReadinessSet(st, client, ready);
      st.log <= s.log && !Heralded(s.log[|st.log|..]) && s.players == st.players
  {
  }

  lemma {:induction false} LeavingOnQueue(st: ServerState, client: ClientId, id: PlayerId)
    requires DistinctPlayers(st)
    ensures
      var s := Departed(st, client);
      && s.log == st.log
      && QueueOf(s.players, id) == if Present(s.players, id) then QueueOf(st.players, id) else NO_TURNS
  {
    hide QueueOf, Present;
    QueueOfLeaver(st.players, client, id);
  }

  lemma {:induction false} UnpausingOnQueue(cfg: Config, st: ServerState, choice: Choice, id: PlayerId)
    requires TickSafe(Unpaused(st), 0) && TickServed(Unpaused(st), 0, choice)
    ensures QueueOf(TickOf(cfg, Unpaused(st), 0, choice).players, id) == NO_TURNS
  {
    hide TickSafe, TickServed, TickOf, QueueOf;
    QueueReset(st.players, id);
    TickAfterReset(cfg, Unpaused(st), 0, choice, id);
  }

  lemma {:induction false} EventFollows(cfg: Config, st: ServerState, e: Event, id: PlayerId)
    requires CanHappen(cfg, st, e) && DistinctPlayers(st)
    ensures Follows(cfg, st, e, id, Happens(cfg, st, e))
  {
    hide TickServed, TickSafe, StartServed, StartSafe, StartDraws, StartSurvives, StartChecked, TickOf, Joined, Turned,
         Departed, ReadinessSet, WillStart, QueueOf, Obeys, Owns, Heralded, Present, DistinctPlayers;
    NoNews(st.log);
    AbsentHasNoTurns(Happens(cfg, st, e).players, id);
    match e {
      case Connect =>
      case Disconnect(client) => LeavingOnQueue(st, client, id);
      case AddPlayer(client, name, c, d) =>
        JoiningOnQueue(st, client, name, id);
        MaybeStartOnQueue(cfg, st, Joined(st, client, name), c, d, id);
      case SetReadiness(client, ready, c, d) =>
        ReadyingOnQueue(st, client, ready);
        MaybeStartOnQueue(cfg, st, ReadinessSet(st, client, ready), c, d, id);
      case TurnCommand(client, player, d) => OthersKeepTheirTurns(st, client, player, d, id);
      case PauseCommand(client, player, c) =>
        OwnsIsObeys(st, client, player);
        if Obeys(st, client, player) && st.paused {
          UnpausingOnQueue(cfg, st, c, id);
        }
      case TimerFires(c) =>
        TimersDoNotMatter(st, c);
        TickOnQueue(cfg, st.(timers := st.timers[1..]), st.timers[0], c, id);
    }
  }

  /** One event keeps: taken and waiting turns are the commands given and kept. */
  lemma {:induction false} EventAccounts(cfg: Config, st: ServerState, e: Event, id: PlayerId, taken: seq<Direction>,
                                         given: seq<Direction>)
    requires CanHappen(cfg, st, e) && DistinctPlayers(st) && Steered(st, id, taken)
    requires taken + QueueOf(st.players, id).pending == Across(given)
    ensures
      var s := Happens(cfg, st, e);
      TakenBy(taken, QueueOf(st.players, id), QueueOf(s.players, id)) + QueueOf(s.players, id).pending
      == Across(GivenBy(cfg, st, e, id, given))
  {
    hide CanHappen, Happens, Forgets, QueueOf, Owns, Present, MovesAlong, Across, Aligned, TakenBy, TurnQueue.Queue,
         TurnQueue.Rest;
    EventFollows(cfg, st, e, id);
    var q := QueueOf(st.players, id);
    if e.TurnCommand? {
      OneMoreGiven(taken, q, given, e.direction);
      QueueingAligns(taken, q, e.direction);
    }
    TakenByReset(taken, q);
    NothingTaken(taken, q);
    OneMoreTaken(taken, q);
  }

  lemma {:induction false} TakenByReset(taken: seq<Direction>, q: TurnQueue)
    ensures TakenBy(taken, q, NO_TURNS) + NO_TURNS.pending == Across([])
  {
  }

  lemma {:induction false} OneMoreTaken(taken: seq<Direction>, q: TurnQueue)
    requires Aligned(taken, q)
    ensures TakenBy(taken, q, q.Rest()) + q.Rest().pending == taken + q.pending
  {
    TakingAligns(taken, q);
    if q.pending != [] {
      assert taken + [q.pending[0]] + q.pending[1..] == taken + q.pending;
    }
  }

  lemma {:induction false} RunAccounts(cfg: Config, st: ServerState, events: seq<Event>, id: PlayerId,
                                       taken: seq<Direction>, given: seq<Direction>)
    requires Run(cfg, st, events) && Kept(cfg, st) && Steered(st, id, taken)
    requires taken + QueueOf(st.players, id).pending == Across(given)
    ensures
      TakenIn(cfg, st, events, id, taken) + QueueOf(AfterAll(cfg, st, events).players, id).pending
      == Across(GivenIn(cfg, st, events, id, given))
    decreases |events|
  {
    hide CanHappen, Happens, Steered, GameKept, DistinctPlayers, QueueOf, TakenBy, GivenBy, Across;
    if events != [] {
      var e, s := events[0], Happens(cfg, st, events[0]);
      EventKeeps(cfg, st, e);
      EventSteers(cfg, st, e, id, taken);
      EventAccounts(cfg, st, e, id, taken, given);
      RunAccounts(cfg, s, events[1..], id, TakenBy(taken, QueueOf(st.players, id), QueueOf(s.players, id)),
                  GivenBy(cfg, st, e, id, given));
    }
  }

  /** After every run of the server, and for every player: the turns that ticks have taken since the last
      reset, followed by those that wait, are the commands given for the player since then by the client it
      belongs to, without those on the axis of the last one kept. No command across that axis is lost. */
  lemma {:induction false} TurnsAreTheCommands(cfg: Config, events: seq<Event>, id: PlayerId)
    requires cfg.settings.startLives >= 1 && Run(cfg, IDLE, events)
    ensures
      TakenIn(cfg, IDLE, events, id, []) + QueueOf(AfterAll(cfg, IDLE, events).players, id).pending
      == Across(GivenIn(cfg, IDLE, events, id, []))
  {
    hide Run, AfterAll, TakenIn, GivenIn;
    RunAccounts(cfg, IDLE, events, id, [], []);
  }
}
