/** A client replays the game from the messages of the server, without any random choice of its own. */
module Replica {
  import opened Geometry
  import opened Definitions
  import opened Scores
  import opened LevelModel
  import opened GameModel

  /** What a playing client shows. */
  datatype ClientState = ClientState(settings: GameSettings, level: Option<LevelState>, scores: ScoreBoard)

  /** A client that knows these players receives a message. None means that the client is not playing,
      or that it gives up: on a number or a tick without a level, where an assertion fails, and on a level or a
      number that would lead it outside the board. */
  ghost function Received(players: seq<PlayerId>, c: Option<ClientState>, m: Message): Option<ClientState> {
    match m
    case GameStart(settings) => Some(ClientState(settings, None, FreshScores(players, settings.startLives)))
    case LevelStart(def) =>
      if c.Some? && def.WellFormed() && def.randomBlocks == []
         && c.value.settings.startLength < WORD && |players| <= |def.starts|
      then Some(c.value.(level := Some(StartOfLevel(c.value.settings, def, players)))) else None
    case NewNumber(number) =>
      if c.Some? && c.value.level.Some? && c.value.level.value.NumberFits()
        && c.value.level.value.(number := number).NumberFits()
      then Some(c.value.(level := Some(c.value.level.value.WithNumber(number)))) else None
    case TickMessage(moves) =>
      if c.Some? && c.value.level.Some? && c.value.level.value.Ready() && c.value.level.value.Scorable(c.value.scores)
      then Some(c.value.(level := Some(Ticked(c.value.settings, c.value.level.value, moves)),
                         scores := TickedScores(c.value.settings, c.value.level.value, moves, c.value.scores)))
      else None
    case _ => c
  }

  /** What a client shows after all the messages of a log. */
  ghost function Replay(players: seq<PlayerId>, log: seq<Message>): Option<ClientState>
    decreases |log|
  {
    if log == [] then None
    else Received(players, Replay(players, log[..|log| - 1]), log[|log| - 1])
  }

  ghost function ReplayFrom(players: seq<PlayerId>, c: Option<ClientState>, log: seq<Message>): Option<ClientState>
    decreases |log|
  {
    if log == [] then c else ReplayFrom(players, Received(players, c, log[0]), log[1..])
  }

  lemma {:induction false} ReplaySplits(players: seq<PlayerId>, before: seq<Message>, log: seq<Message>)
    ensures Replay(players, before + log) == ReplayFrom(players, Replay(players, before), log)
    decreases |log|
  {
    if log == [] {
      assert before + log == before;
    } else {
      assert before + log == (before + [log[0]]) + log[1..];
      ReplaySplits(players, before + [log[0]], log[1..]);
      assert (before + [log[0]])[..|before|] == before;
    }
  }

  /** What was sent before the last start of a game makes no difference. */
  lemma {:induction false} OnlySinceGameStart(players: seq<PlayerId>, before: seq<Message>, other: seq<Message>,
                                              settings: GameSettings, log: seq<Message>)
    ensures Replay(players, before + ([GameStart(settings)] + log))
      == Replay(players, other + ([GameStart(settings)] + log))
  {
    ReplaySplits(players, before, [GameStart(settings)] + log);
    ReplaySplits(players, other, [GameStart(settings)] + log);
  }

  /** A client that shows something has not given up on any message since the last start of a game. */
  lemma {:induction false} NeverGaveUp(players: seq<PlayerId>, log: seq<Message>, k: nat)
    requires k <= |log| && Replay(players, log).Some?
    requires forall i :: k <= i < |log| ==> !log[i].GameStart?
    ensures Replay(players, log[..k]).Some?
    decreases |log|
  {
    if k < |log| {
      var n := |log| - 1;
      NeverGaveUp(players, log[..n], k);
      assert log[..n][..k] == log[..k];
    } else {
      assert log[..k] == log;
    }
  }

  /** The client shows what the server plays. */
  ghost predicate Mirrors(c: Option<ClientState>, g: GameState, sb: ScoreBoard) {
    c == Some(ClientState(g.settings, Some(g.level), sb))
  }

  lemma {:induction false} DrawnNumberFits(l: LevelState, draws: seq<Point>, value: nat)
    requires l.def.w < WORD && l.def.h < WORD && l.Placeable(draws)
    ensures l.(number := l.Drawn(draws, value)).NumberFits()
  {
  }

  lemma {:induction false} FirstNumberFits(settings: GameSettings, def: LevelDefinition, players: seq<PlayerId>,
                                           draws: seq<Point>)
    requires def.WellFormed() && settings.startLength < WORD && |players| <= |def.starts|
    requires StartOfLevel(settings, def, players).Placeable(draws)
    ensures
      var l := StartOfLevel(settings, def, players);
      l.NumberFits() && l.(number := FirstOfLevel(settings, def, players, draws).number).NumberFits()
  {
    hide LevelState.Placeable;
    DrawnNumberFits(StartOfLevel(settings, def, players), draws, 1);
  }

  /** The announcement of a level puts a client that knows the same players into the state of the server. */
  lemma {:induction false} AnnouncementMirrors(levels: seq<LevelDefinition>, settings: GameSettings,
                                               players: seq<PlayerId>, levelId: nat, choice: Choice, c: ClientState)
    requires Suits(levels, settings, players) && CanStart(levels, settings, players, levelId, choice)
    requires c.settings == settings
    ensures
      var g := Started(levels, settings, players, levelId, choice);
      Mirrors(ReplayFrom(players, Some(c), Announcement(g.level)), g, c.scores)
  {
    hide Realised, LevelState.Placeable, StartOfLevel;
    var g := Started(levels, settings, players, levelId, choice);
    RealisedWalls(DefinitionOf(levels, levelId), choice.draw, Point(0, 0));
    var log := Announcement(g.level);
    var l := StartOfLevel(settings, g.level.def, players);
    assert g.level == l.WithNumber(g.level.number);
    assert Received(players, Some(c), log[0]) == Some(c.(level := Some(l)));
    FirstNumberFits(settings, g.level.def, players, choice.corners);
    ReplayTwo(players, Some(c), log);
  }

  lemma {:induction false} ReplayOne(players: seq<PlayerId>, c: Option<ClientState>, m: Message, log: seq<Message>)
    ensures ReplayFrom(players, c, [m] + log) == ReplayFrom(players, Received(players, c, m), log)
  {
    hide Received;
    assert ([m] + log)[1..] == log;
  }

  lemma {:induction false} ReplayTwo(players: seq<PlayerId>, c: Option<ClientState>, log: seq<Message>)
    requires |log| == 2
    ensures ReplayFrom(players, c, log) == Received(players, Received(players, c, log[0]), log[1])
  {
    hide Received;
    assert log == [log[0]] + ([log[1]] + []);
    ReplayOne(players, c, log[0], [log[1]] + []);
    ReplayOne(players, Received(players, c, log[0]), log[1], []);
  }

  lemma {:induction false} MovesReceived(g: GameState, sb: ScoreBoard, moves: Moves, c: Option<ClientState>)
    requires Tickable(g, sb) && Mirrors(c, g, sb)
    ensures Received(g.players, c, TickMessage(moves))
         == Some(ClientState(g.settings, Some(Ticked(g.settings, g.level, moves)),
                             TickedScores(g.settings, g.level, moves, sb)))
  {
  }

  /** After the messages of a whole tick the client again shows what the server plays. */
  lemma {:induction false} TickMirrors(g: GameState, sb: ScoreBoard, moves: Moves, choice: Choice,
                                       c: Option<ClientState>)
    requires Tickable(g, sb) && Serves(choice, g, moves, sb)
    requires Mirrors(c, g, sb)
    ensures Mirrors(ReplayFrom(g.players, c, [TickMessage(moves)] + Announced(g, moves, sb, choice)),
                    GameTicked(g, moves, sb, choice),
                    TickedScores(g.settings, g.level, moves, sb))
  {
    hide Ticked, TickedScores, TickedResult, Started, LevelState.Ready, Suits, CanStart, LevelState.Placeable,
         LevelState.WithNumber, LevelState.Drawn;
    var ticked := ClientState(g.settings, Some(Ticked(g.settings, g.level, moves)),
                              TickedScores(g.settings, g.level, moves, sb));
    MovesReceived(g, sb, moves, c);
    ReplayOne(g.players, c, TickMessage(moves), Announced(g, moves, sb, choice));
    var next := NextLevelId(g, moves, sb);
    if next.Some? {
      AnnouncementMirrors(g.levels, g.settings, g.players, next.value, choice, ticked);
    } else if AsksForNumber(g.level, moves, sb) {
      var number := Ticked(g.settings, g.level, moves).Drawn(choice.corners, g.level.number.value + 1);
      NumberOfProgress(g, sb, moves, choice);
      TickedNumberFits(g, sb, moves, choice);
      assert Announced(g, moves, sb, choice) == [NewNumber(number)] + [];
      ReplayOne(g.players, Some(ticked), NewNumber(number), []);
    }
  }

  lemma {:induction false} TickedNumberFits(g: GameState, sb: ScoreBoard, moves: Moves, choice: Choice)
    requires Tickable(g, sb) && Serves(choice, g, moves, sb) && AsksForNumber(g.level, moves, sb)
    ensures
      var l := Ticked(g.settings, g.level, moves);
      l.NumberFits() && l.(number := l.Drawn(choice.corners, g.level.number.value + 1)).NumberFits()
  {
    var l := Ticked(g.settings, g.level, moves);
    TickedKeepsDefinition(g.settings, g.level, moves);
    hide Ticked, LevelState.Placeable, LevelState.Ready, Suits, CanStart;
    DrawnNumberFits(l, choice.corners, g.level.number.value + 1);
  }

  lemma {:induction false} NumberOfProgress(g: GameState, sb: ScoreBoard, moves: Moves, choice: Choice)
    requires Tickable(g, sb) && Serves(choice, g, moves, sb) && AsksForNumber(g.level, moves, sb)
    ensures GameTicked(g, moves, sb, choice).level.number
         == Ticked(g.settings, g.level, moves).Drawn(choice.corners, g.level.number.value + 1)
  {
  }

  /** The replay agrees only for a client that knows the same players in the same order. */
  lemma {:induction false} SamePlayersNeeded(settings: GameSettings, def: LevelDefinition, players: seq<PlayerId>,
                                             others: seq<PlayerId>)
    requires settings.startLength < WORD && |players| <= |def.starts| && |others| <= |def.starts|
    ensures StartOfLevel(settings, def, players) == StartOfLevel(settings, def, others) <==> players == others
  {
    var l, m := StartOfLevel(settings, def, players), StartOfLevel(settings, def, others);
    if l == m {
      assert |players| == |others|;
      forall i | 0 <= i < |players|
        ensures players[i] == others[i]
      {
        assert l.snakes[i].player == players[i] && m.snakes[i].player == others[i];
      }
    }
  }
}
