/** The players a client knows. It hears of every player that joins before a game, but never of one that
    leaves; so it shows the game of the server exactly if nobody has left before the game started. */
module ClientRosters {
  import opened Geometry
  import opened Definitions
  import opened Scores
  import opened LevelModel
  import opened GameModel
  import opened GameRuns
  import opened Replica
  import opened ServerModel
  import opened ServerInvariants
  import opened ServerRosters
  import opened TurnRuns
  import opened Delivery

  /** A player as a client knows it. */
  datatype Entry = Entry(id: PlayerId, name: string)

  function EntriesOf(players: seq<PlayerState>): (list: seq<Entry>)
    ensures |list| == |players|
    ensures forall i :: 0 <= i < |list| ==> list[i] == Entry(players[i].id, players[i].name)
  {
    seq(|players|, i requires 0 <= i < |players| => Entry(players[i].id, players[i].name))
  }

  function IdsOf(list: seq<Entry>): (ids: seq<PlayerId>)
    ensures |ids| == |list| && forall i :: 0 <= i < |ids| ==> ids[i] == list[i].id
  {
    seq(|list|, i requires 0 <= i < |list| => list[i].id)
  }

  /** A new player is noted unless the list has its id or its name. */
  function Noted(list: seq<Entry>, m: Message): seq<Entry> {
    match m
    case PlayerAdded(id, name) =>
      if exists i :: 0 <= i < |list| && (list[i].id == id || list[i].name == name) then list
      else list + [Entry(id, name)]
    case _ => list
  }

  /** The list of a client that has been waiting for a game; once the game starts it is fixed. */
  function Known(list: seq<Entry>, log: seq<Message>): seq<Entry>
    decreases |log|
  {
    if log == [] || log[0].GameStart? then list else Known(Noted(list, log[0]), log[1..])
  }

  /** No two entries share an id or a name. */
  predicate AllDistinct(list: seq<Entry>) {
    forall i, j :: 0 <= i < j < |list| ==> list[i].id != list[j].id && list[i].name != list[j].name
  }

  /** Whatever a client hears, its list never has two entries with an id or a name in common, and nobody on it
      is struck off. */
  lemma {:induction false} KnownStaysDistinct(list: seq<Entry>, log: seq<Message>)
    requires AllDistinct(list)
    ensures AllDistinct(Known(list, log)) && list <= Known(list, log)
    decreases |log|
  {
    if log != [] && !log[0].GameStart? {
      KnownStaysDistinct(Noted(list, log[0]), log[1..]);
    }
  }

  /** No game starts. */
  predicate Quiet(log: seq<Message>) {
    forall i :: 0 <= i < |log| ==> !log[i].GameStart?
  }

  lemma {:induction false} KnownSplits(list: seq<Entry>, log: seq<Message>, more: seq<Message>)
    ensures Known(list, log + more) == if Quiet(log) then Known(Known(list, log), more) else Known(list, log)
    decreases |log|
  {
    if log == [] {
      assert log + more == more;
    } else if !log[0].GameStart? {
      assert (log + more)[1..] == log[1..] + more;
      KnownSplits(Noted(list, log[0]), log[1..], more);
      QuietFront(log);
    }
  }

  lemma {:induction false} QuietFront(log: seq<Message>)
    requires log != [] && !log[0].GameStart?
    ensures Quiet(log) <==> Quiet(log[1..])
  {
    assert log == [log[0]] + log[1..];
  }

  // ---------------------------------------------------------------- what is known and who is there

  predicate Matches(list: seq<Entry>, st: ServerState) {
    list == EntriesOf(st.players)
  }

  /** The id was given to a player that is no longer there. */
  predicate Gone(st: ServerState, id: PlayerId) {
    id < st.nextPlayer && forall i :: 0 <= i < |st.players| ==> st.players[i].id != id
  }

  /** The list has a player that has left. */
  predicate Strays(list: seq<Entry>, st: ServerState) {
    exists k :: 0 <= k < |list| && Gone(st, list[k].id)
  }

  /** A client leaves that has players. */
  predicate TakesPlayers(st: ServerState, e: Event) {
    e.Disconnect? && exists i :: 0 <= i < |st.players| && st.players[i].client == e.client
  }

  ghost predicate NobodyLeaves(cfg: Config, st: ServerState, events: seq<Event>)
    requires Run(cfg, st, events)
    decreases |events|
  {
    hide CanHappen, Happens;
    events == [] || (!TakesPlayers(st, events[0]) && NobodyLeaves(cfg, Happens(cfg, st, events[0]), events[1..]))
  }

  lemma {:induction false} StraysAreNoPlayers(list: seq<Entry>, st: ServerState)
    requires Strays(list, st)
    ensures IdsOf(list) != Ids(st.players)
  {
    var k :| 0 <= k < |list| && Gone(st, list[k].id);
    if |list| == |st.players| {
      assert IdsOf(list)[k] != Ids(st.players)[k];
    }
  }

  /** Who has gone stays gone, and remains on the list. */
  lemma {:induction false} StillStrays(list: seq<Entry>, st: ServerState, longer: seq<Entry>, s: ServerState)
    requires Strays(list, st) && list <= longer && st.nextPlayer <= s.nextPlayer
    requires forall i :: 0 <= i < |s.players| ==>
      s.players[i].id >= st.nextPlayer || exists k :: 0 <= k < |st.players| && st.players[k].id == s.players[i].id
    ensures Strays(longer, s)
  {
    var k :| 0 <= k < |list| && Gone(st, list[k].id);
    assert longer[k] == list[k] && Gone(s, longer[k].id);
  }

  // ---------------------------------------------------------------- before the game

  lemma {:induction false} JoiningIsNoted(st: ServerState, client: ClientId, name: string, list: seq<Entry>)
    requires DistinctPlayers(st)
    ensures
      var s := Joined(st, client, name);
      && s.game == st.game
      && st.log <= s.log && Quiet(s.log[|st.log|..])
      && var known := Known(list, s.log[|st.log|..]);
      && (Matches(list, st) ==> Matches(known, s))
      && (Strays(list, st) ==> Strays(known, s))
  {
    var s := Joined(st, client, name);
    var news := s.log[|st.log|..];
    if s.players != st.players {
      assert news == [PlayerAdded(st.nextPlayer, name)];
      assert Known(list, news) == Noted(list, news[0]) by { assert news[1..] == []; }
    } else {
      assert news == [];
    }
    if Strays(list, st) {
      forall i | 0 <= i < |s.players|
        ensures
          s.players[i].id >= st.nextPlayer || exists k :: 0 <= k < |st.players| && st.players[k].id == s.players[i].id
      {
        if i < |st.players| {
          assert st.players[i].id == s.players[i].id;
        }
      }
      StillStrays(list, st, Known(list, news), s);
    }
  }

  lemma {:induction false} LeavingIsNotNoted(st: ServerState, client: ClientId, list: seq<Entry>)
    requires DistinctPlayers(st)
    ensures
      var s := Departed(st, client);
      && (Matches(list, st) ==> if TakesPlayers(st, Disconnect(client)) then Strays(list, s) else Matches(list, s))
      && (Strays(list, st) ==> Strays(list, s))
  {
    RemovingAClient(st.players, client);
    var s := Departed(st, client);
    if Strays(list, st) {
      forall i | 0 <= i < |s.players|
        ensures exists k :: 0 <= k < |st.players| && st.players[k].id == s.players[i].id
      {
        var k :| 0 <= k < |st.players| && st.players[k] == s.players[i];
        assert st.players[k].id == s.players[i].id;
      }
      StillStrays(list, st, list, s);
    }
    if Matches(list, st) {
      if i :| 0 <= i < |st.players| && st.players[i].client == client {
        LeaverIsGone(st, client, i);
        assert Gone(s, list[i].id);
      } else {
        NobodyToRemove(st.players, client);
      }
    }
  }

  lemma {:induction false} LeaverIsGone(st: ServerState, client: ClientId, i: nat)
    requires DistinctPlayers(st) && i < |st.players| && st.players[i].client == client
    ensures Gone(Departed(st, client), st.players[i].id)
  {
    var s := Departed(st, client);
    PlayersOfOthers(st.players, client);
    forall k | 0 <= k < |s.players|
      ensures s.players[k].id != st.players[i].id
    {
      assert s.players[k] in s.players;
    }
  }

  lemma {:induction false} NobodyToRemove(players: seq<PlayerState>, client: ClientId)
    requires forall i :: 0 <= i < |players| ==> players[i].client != client
    ensures WithoutClient(players, client) == players
  {
    if players != [] {
      NobodyToRemove(players[1..], client);
    }
  }

  /** A start of a game is announced right behind what has been sent before. */
  lemma {:induction false} StartIsAnnounced(cfg: Config, st: ServerState, starting: Choice, ticking: Choice)
    requires StartDraws(cfg, st, starting, ticking) && StartSurvives(cfg, st, starting, ticking) && WillStart(st)
    ensures st.log + [GameStart(cfg.settings)] <= StartChecked(cfg, st, starting, ticking).log
  {
    hide TickSafe, TickServed, StartServed, TickOf, WillStart, Announcement;
    var s := GameBegun(cfg, st, starting);
    TickExtendsLog(cfg, s, cfg.countdown, ticking);
    assert st.log + [GameStart(cfg.settings)] <= s.log;
  }

  lemma {:induction false} LoudBehind(log: seq<Message>, middle: seq<Message>, settings: GameSettings,
                                      longer: seq<Message>)
    requires log <= middle && middle + [GameStart(settings)] <= longer
    ensures log <= longer && !Quiet(longer[|log|..])
    ensures Quiet(middle[|log|..]) ==>
      forall list :: Known(list, longer[|log|..]) == Known(list, middle[|log|..])
  {
    var news := longer[|log|..];
    assert news[|middle| - |log|] == GameStart(settings);
    forall list | Quiet(middle[|log|..])
      ensures Known(list, news) == Known(list, middle[|log|..])
    {
      assert news == middle[|log|..] + longer[|middle|..];
      KnownSplits(list, middle[|log|..], longer[|middle|..]);
    }
  }

  /** What an event does to the players if no game is on and none starts. */
  lemma {:induction false} QuietEvent(cfg: Config, st: ServerState, e: Event)
    requires CanHappen(cfg, st, e) && st.game.None?
    requires st.log <= Happens(cfg, st, e).log && Quiet(Happens(cfg, st, e).log[|st.log|..])
    ensures
      var s := Happens(cfg, st, e);
      && s.game.None?
      && match e
         case AddPlayer(client, name, _, _) => s == Joined(st, client, name)
         case Disconnect(client) => s == Departed(st, client)
         case SetReadiness(client, ready, _, _) => s == ReadinessSet(st, client, ready)
         case _ => EntriesOf(s.players) == EntriesOf(st.players) && s.nextPlayer == st.nextPlayer && s.log == st.log
  {
    hide TickServed, StartServed, StartSafe, StartFits, TickSafe, StartDraws, StartSurvives, StartChecked, WillStart,
         TickOf, Quiet, Departed;
    match e {
      case AddPlayer(client, name, c, d) => QuietStart(cfg, st, Joined(st, client, name), c, d);
      case SetReadiness(client, ready, c, d) => QuietStart(cfg, st, ReadinessSet(st, client, ready), c, d);
      case Disconnect(client) => LeavingStartsNothing(st, client);
      case TurnCommand(client, player, d) => SameEntries(st.players, Turned(st.players, player, d));
      case PauseCommand(client, player, c) =>
        SameEntries(st.players, AllReset(st.players));
        if Obeys(st, client, player) && st.paused {
          RestingTick(cfg, Unpaused(st), 0, c);
        }
      case TimerFires(c) =>
        TimersDoNotMatter(st, c);
        RestingTick(cfg, st.(timers := st.timers[1..]), st.timers[0], c);
      case _ =>
    }
  }

  lemma {:induction false} SameEntries(players: seq<PlayerState>, others: seq<PlayerState>)
    requires |others| == |players|
    requires forall i :: 0 <= i < |players| ==> others[i] == players[i].(turns := others[i].turns)
    ensures EntriesOf(others) == EntriesOf(players)
  {
  }

  lemma {:induction false} RestingTick(cfg: Config, st: ServerState, countdown: nat, choice: Choice)
    requires TickSafe(st, countdown) && TickServed(st, countdown, choice) && st.game.None?
    ensures TickOf(cfg, st, countdown, choice) == st.(pausing := false, paused := true)
  {
  }

  lemma {:induction false} QuietStart(cfg: Config, before: ServerState, st: ServerState, starting: Choice,
                                      ticking: Choice)
    requires StartDraws(cfg, st, starting, ticking) && StartSurvives(cfg, st, starting, ticking)
    requires before.log <= st.log && before.log <= StartChecked(cfg, st, starting, ticking).log
    requires Quiet(StartChecked(cfg, st, starting, ticking).log[|before.log|..])
    ensures !WillStart(st) && StartChecked(cfg, st, starting, ticking) == st
  {
    if WillStart(st) {
      StartIsAnnounced(cfg, st, starting, ticking);
      LoudBehind(before.log, st.log, cfg.settings, StartChecked(cfg, st, starting, ticking).log);
      assert false;
    }
  }

  /** While no game is on, a list that matches the players goes on matching them until a client with
      players leaves. From then on it holds a player that is not there. */
  lemma {:induction false} WaitingEvent(cfg: Config, st: ServerState, e: Event, list: seq<Entry>)
    requires CanHappen(cfg, st, e) && DistinctPlayers(st) && st.game.None?
    requires st.log <= Happens(cfg, st, e).log && Quiet(Happens(cfg, st, e).log[|st.log|..])
    ensures
      var s := Happens(cfg, st, e);
      var known := Known(list, s.log[|st.log|..]);
      && s.game.None?
      && (Matches(list, st) ==> if TakesPlayers(st, e) then Strays(known, s) else Matches(known, s))
      && (Strays(list, st) ==> Strays(known, s))
  {
    QuietEvent(cfg, st, e);
    var s := Happens(cfg, st, e);
    hide CanHappen, Happens, Joined, Strays, Matches, Quiet;
    match e {
      case AddPlayer(client, name, _, _) => JoiningIsNoted(st, client, name, list);
      case Disconnect(client) =>
        LeavingIsNotNoted(st, client, list);
        assert s.log[|st.log|..] == [];
      case SetReadiness(client, ready, _, _) =>
        SamePlayersAsBefore(list, st, s);
        assert Known(list, s.log[|st.log|..]) == list by {
          assert s.log[|st.log|..] == [UpdateReadiness(client, ready)];
          assert s.log[|st.log|..][1..] == [];
        }
      case _ =>
        SamePlayersAsBefore(list, st, s);
        assert s.log[|st.log|..] == [];
    }
  }

  lemma {:induction false} SamePlayersAsBefore(list: seq<Entry>, st: ServerState, s: ServerState)
    requires EntriesOf(s.players) == EntriesOf(st.players) && s.nextPlayer == st.nextPlayer
    ensures (Matches(list, st) <==> Matches(list, s)) && (Strays(list, st) <==> Strays(list, s))
  {
    forall id
      ensures Gone(st, id) <==> Gone(s, id)
    {
      assert forall i :: 0 <= i < |st.players| ==> EntriesOf(st.players)[i].id == EntriesOf(s.players)[i].id;
    }
  }

  lemma {:induction false} WaitingRun(cfg: Config, st: ServerState, events: seq<Event>, list: seq<Entry>)
    requires Run(cfg, st, events) && Kept(cfg, st) && st.game.None?
    requires st.log <= AfterAll(cfg, st, events).log && Quiet(AfterAll(cfg, st, events).log[|st.log|..])
    ensures
      var s := AfterAll(cfg, st, events);
      var known := Known(list, s.log[|st.log|..]);
      && Kept(cfg, s) && s.game.None?
      && (Matches(list, st) ==> if NobodyLeaves(cfg, st, events) then Matches(known, s) else Strays(known, s))
      && (Strays(list, st) ==> Strays(known, s))
    decreases |events|
  {
    hide CanHappen, Happens, Matches, Strays, TakesPlayers, GameKept, DistinctPlayers;
    var end := AfterAll(cfg, st, events);
    if events == [] {
      assert end.log[|st.log|..] == [];
    } else {
      var s := Happens(cfg, st, events[0]);
      EventExtendsLog(cfg, st, events[0]);
      RunExtendsLog(cfg, s, events[1..], 0);
      var first, rest := s.log[|st.log|..], end.log[|s.log|..];
      assert end.log[|st.log|..] == first + rest;
      QuietParts(first, rest);
      KnownSplits(list, first, rest);
      WaitingEvent(cfg, st, events[0], list);
      EventKeeps(cfg, st, events[0]);
      WaitingRun(cfg, s, events[1..], Known(list, first));
    }
  }

  lemma {:induction false} QuietParts(first: seq<Message>, rest: seq<Message>)
    ensures Quiet(first + rest) <==> Quiet(first) && Quiet(rest)
  {
    var both := first + rest;
    assert forall i :: 0 <= i < |first| ==> both[i] == first[i];
    assert forall i :: 0 <= i < |rest| ==> both[|first| + i] == rest[i];
    assert forall i :: |first| <= i < |both| ==> both[i] == rest[i - |first|];
  }

  // ---------------------------------------------------------------- the game

  /** The players of a game that starts are those of the server. */
  lemma {:induction false} StartingEvent(cfg: Config, st: ServerState, e: Event, list: seq<Entry>)
    requires CanHappen(cfg, st, e) && Kept(cfg, st) && st.game.None? && Happens(cfg, st, e).game.Some?
    ensures
      var s := Happens(cfg, st, e);
      && st.log <= s.log && !Quiet(s.log[|st.log|..])
      && var known := Known(list, s.log[|st.log|..]);
      && (Matches(list, st) ==> IdsOf(known) == s.game.value.players)
      && (Strays(list, st) ==> IdsOf(known) != s.game.value.players)
  {
    hide TickServed, StartServed, StartSafe, StartFits, TickSafe, StartDraws, StartSurvives, StartChecked, WillStart,
         TickOf, Quiet, Joined, Departed, ReadinessSet, Matches, Strays, GameKept, DistinctPlayers;
    match e {
      case AddPlayer(client, name, c, d) =>
        JoiningIsNoted(st, client, name, list);
        StartingMatches(cfg, st, Joined(st, client, name), c, d, list);
      case SetReadiness(client, ready, c, d) =>
        ReadyingIsNotNoted(st, client, ready, list);
        StartingMatches(cfg, st, ReadinessSet(st, client, ready), c, d, list);
      case PauseCommand(client, player, c) =>
        if Obeys(st, client, player) && st.paused {
          TickStartsNoGame(cfg, Unpaused(st), 0, c);
        }
      case TimerFires(c) =>
        TimersDoNotMatter(st, c);
        TickStartsNoGame(cfg, st.(timers := st.timers[1..]), st.timers[0], c);
      case Disconnect(client) => LeavingStartsNothing(st, client);
      case _ =>
    }
  }

  lemma {:induction false} LeavingStartsNothing(st: ServerState, client: ClientId)
    ensures Departed(st, client).game.Some? ==> st.game.Some?
  {
  }

  lemma {:induction false} ReadyingIsNotNoted(st: ServerState, client: ClientId, ready: bool, list: seq<Entry>)
    ensures
      var s := ReadinessSet(st, client, ready);
      && s.game == st.game
      && st.log <= s.log && Quiet(s.log[|st.log|..]) && Known(list, s.log[|st.log|..]) == list
      && (Matches(list, st) <==> Matches(list, s)) && (Strays(list, st) <==> Strays(list, s))
  {
    var s := ReadinessSet(st, client, ready);
    assert s.log[|st.log|..] == [UpdateReadiness(client, ready)];
    assert s.log[|st.log|..][1..] == [];
    SamePlayersAsBefore(list, st, s);
  }

  lemma {:induction false} StartingMatches(cfg: Config, before: ServerState, st: ServerState, starting: Choice,
                                           ticking: Choice, list: seq<Entry>)
    requires StartDraws(cfg, st, starting, ticking) && StartSurvives(cfg, st, starting, ticking)
    requires st.game.None? && StartChecked(cfg, st, starting, ticking).game.Some?
    requires before.log <= st.log && Quiet(st.log[|before.log|..])
    ensures
      var s := StartChecked(cfg, st, starting, ticking);
      && before.log <= s.log && !Quiet(s.log[|before.log|..])
      && var known := Known(list, st.log[|before.log|..]);
      && Known(list, s.log[|before.log|..]) == known
      && (Matches(known, st) ==> IdsOf(known) == s.game.value.players)
      && (Strays(known, st) ==> IdsOf(known) != s.game.value.players)
  {
    hide TickServed, StartServed, TickSafe, WillStart, TickOf, Strays, Quiet, GameBegun, StartFits;
    var s := StartChecked(cfg, st, starting, ticking);
    assert WillStart(st);
    StartIsAnnounced(cfg, st, starting, ticking);
    LoudBehind(before.log, st.log, cfg.settings, s.log);
    PlayersOfNewGame(cfg, st, starting, ticking);
    var known := Known(list, st.log[|before.log|..]);
    if Strays(known, st) {
      StraysAreNoPlayers(known, st);
    }
  }

  lemma {:induction false} PlayersOfNewGame(cfg: Config, st: ServerState, starting: Choice, ticking: Choice)
    requires StartDraws(cfg, st, starting, ticking) && StartSurvives(cfg, st, starting, ticking) && WillStart(st)
    requires StartChecked(cfg, st, starting, ticking).game.Some?
    ensures StartChecked(cfg, st, starting, ticking).game.value.players == Ids(st.players)
  {
    hide TickSafe, TickServed, StartServed, TickOf, WillStart, Suits, CanStart;
    TickKeepsGamePlayers(cfg, GameBegun(cfg, st, starting), cfg.countdown, ticking);
  }

  lemma {:induction false} TickKeepsGamePlayers(cfg: Config, st: ServerState, countdown: nat, choice: Choice)
    requires TickSafe(st, countdown) && TickServed(st, countdown, choice)
    requires TickOf(cfg, st, countdown, choice).game.Some?
    ensures st.game.Some? && TickOf(cfg, st, countdown, choice).game.value.players == st.game.value.players
  {
    hide Tickable, Serves, Announced, GameTicked, TickedScores, ProgressedResult, MovesOf, Fits;
    if Plays(st, countdown) {
      TickedPlayers(st.game.value, st.scorer, MovesOf(st.players), choice);
    } else if Rests(st, countdown) {
      TickStartsNoGame(cfg, st, countdown, choice);
    }
  }

  /** While a game is on, its players stay the same. */
  lemma {:induction false} PlayingEvent(cfg: Config, st: ServerState, e: Event)
    requires CanHappen(cfg, st, e) && st.game.Some? && Happens(cfg, st, e).game.Some?
    ensures Happens(cfg, st, e).game.value.players == st.game.value.players
  {
    hide TickServed, StartServed, StartSafe, StartFits, TickSafe, StartDraws, StartSurvives, TickOf, WithoutClient,
         WithoutConnection, WithReadiness, Turned;
    match e {
      case PauseCommand(client, player, c) =>
        if Obeys(st, client, player) && st.paused {
          TickKeepsGamePlayers(cfg, Unpaused(st), 0, c);
        }
      case TimerFires(c) =>
        TimersDoNotMatter(st, c);
        TickKeepsGamePlayers(cfg, st.(timers := st.timers[1..]), st.timers[0], c);
      case _ =>
    }
  }

  lemma {:induction false} PlayingRun(cfg: Config, st: ServerState, events: seq<Event>)
    requires Run(cfg, st, events) && st.game.Some? && AfterAll(cfg, st, events).game.Some?
    requires st.log <= AfterAll(cfg, st, events).log && Quiet(AfterAll(cfg, st, events).log[|st.log|..])
    ensures AfterAll(cfg, st, events).game.value.players == st.game.value.players
    decreases |events|
  {
    hide CanHappen, Happens;
    if events != [] {
      var s, end := Happens(cfg, st, events[0]), AfterAll(cfg, st, events);
      EventExtendsLog(cfg, st, events[0]);
      RunExtendsLog(cfg, s, events[1..], 0);
      var first, rest := s.log[|st.log|..], end.log[|s.log|..];
      assert end.log[|st.log|..] == first + rest;
      QuietParts(first, rest);
      QuietHasNoStart(end.log, |s.log|);
      if s.game.None? {
        RunAnnounces(cfg, s, events[1..]);
        assert false;
      } else {
        PlayingEvent(cfg, st, events[0]);
        PlayingRun(cfg, s, events[1..]);
      }
    }
  }

  lemma {:induction false} QuietHasNoStart(log: seq<Message>, start: nat)
    requires start <= |log|
    ensures HasGameStart(log, start) <==> !Quiet(log[start..])
  {
    if !Quiet(log[start..]) {
      var i :| 0 <= i < |log[start..]| && log[start..][i].GameStart?;
      assert log[start + i].GameStart?;
    }
    if HasGameStart(log, start) {
      var i :| start <= i < |log| && log[i].GameStart?;
      assert log[start..][i - start].GameStart?;
    }
  }

  // ---------------------------------------------------------------- what the client shows

  /** The snakes a client shows, if it shows a level, are those of the players it knows. */
  predicate Shows(players: seq<PlayerId>, c: Option<ClientState>) {
    c.Some? && c.value.level.Some? ==>
      var snakes := c.value.level.value.snakes;
      |snakes| == |players| && forall i :: 0 <= i < |players| ==> snakes[i].player == players[i]
  }

  lemma {:induction false} ReplayShowsPlayers(players: seq<PlayerId>, log: seq<Message>)
    ensures Shows(players, Replay(players, log))
    decreases |log|
  {
    if log != [] {
      var n := |log| - 1;
      ReplayShowsPlayers(players, log[..n]);
      var before := Replay(players, log[..n]);
      hide Replay;
      ReceivedShowsPlayers(players, before, log[n]);
      assert Replay(players, log) == Received(players, before, log[n]) by { LastReceived(players, log); }
    }
  }

  lemma {:induction false} LastReceived(players: seq<PlayerId>, log: seq<Message>)
    requires log != []
    ensures Replay(players, log) == Received(players, Replay(players, log[..|log| - 1]), log[|log| - 1])
  {
  }

  lemma {:induction false} ReceivedShowsPlayers(players: seq<PlayerId>, c: Option<ClientState>, m: Message)
    requires Shows(players, c)
    ensures Shows(players, Received(players, c, m))
  {
    hide Ticked, TickedScores, LevelState.Ready, LevelState.NumberFits, LevelState.Scorable, LevelDefinition.WellFormed,
         LevelState.WithNumber;
    match m {
      case TickMessage(moves) =>
        if Received(players, c, m).Some? {
          DirectionsTicked(c.value.settings, c.value.level.value, moves);
        }
      case NewNumber(number) =>
        if Received(players, c, m).Some? {
          NumberKeepsSnakes(c.value.level.value, number);
        }
      case _ =>
    }
  }

  lemma {:induction false} NumberKeepsSnakes(l: LevelState, number: Number)
    ensures l.WithNumber(number).snakes == l.snakes
  {
  }

  lemma {:induction false} GameIsSeated(g: GameState, sb: ScoreBoard)
    requires LawfulGame(g, sb)
    ensures |g.level.snakes| == |g.players|
    ensures forall i :: 0 <= i < |g.players| ==> g.level.snakes[i].player == g.players[i]
  {
    var h :| Lawful(World(g, sb, h, false));
    hide Rostered, ScoreLaw, LifeLaw, MealLaw, LengthLaw, LengthsFit;
  }

  /** A client that knows some players shows the game of the server exactly if they are the players of the
      game, in the same order. */
  lemma {:induction false} SamePlayersMirror(cfg: Config, st: ServerState, players: seq<PlayerId>, start: nat)
    requires Kept(cfg, st) && st.game.Some? && start <= |st.log| && HasGameStart(st.log, start)
    ensures Mirrors(Replay(players, st.log[start..]), st.game.value, st.scorer) <==> players == st.game.value.players
  {
    hide LawfulGame, HasGameStart, Replay, DistinctPlayers;
    var g := st.game.value;
    ThePastDoesNotMatter(g.players, st.log, start);
    if Mirrors(Replay(players, st.log[start..]), g, st.scorer) {
      ReplayShowsPlayers(players, st.log[start..]);
      GameIsSeated(g, st.scorer);
    }
  }

  /** A client that waits for a game, with a list that matches the players of the server, and that hears
      everything from then on, shows the game that starts next, for as long as it is on, exactly if no
      client with players leaves before it starts. */
  lemma {:induction false} ClientsFollowUnlessSomebodyLeaves(cfg: Config, before: seq<Event>, waiting: seq<Event>,
                                                             start: Event, playing: seq<Event>, list: seq<Entry>)
    requires cfg.settings.startLives >= 1 && Run(cfg, IDLE, before)
    requires
      var st := AfterAll(cfg, IDLE, before);
      && st.game.None? && Matches(list, st) && Run(cfg, st, waiting)
      && var ready := AfterAll(cfg, st, waiting);
      && st.log <= ready.log && Quiet(ready.log[|st.log|..])
      && CanHappen(cfg, ready, start)
      && var begun := Happens(cfg, ready, start);
      && begun.game.Some? && Run(cfg, begun, playing)
      && var end := AfterAll(cfg, begun, playing);
      && end.game.Some? && begun.log <= end.log && Quiet(end.log[|begun.log|..])
    ensures
      var st := AfterAll(cfg, IDLE, before);
      var end := AfterAll(cfg, Happens(cfg, AfterAll(cfg, st, waiting), start), playing);
      && st.log <= end.log
      && var heard := end.log[|st.log|..];
      && (Mirrors(Replay(IdsOf(Known(list, heard)), heard), end.game.value, end.scorer) <==>
            NobodyLeaves(cfg, st, waiting))
  {
    hide Run, AfterAll, CanHappen, Happens, Matches, Strays, GameKept, DistinctPlayers, NobodyLeaves, Known, Mirrors,
         Replay, Quiet, HasGameStart;
    var st := AfterAll(cfg, IDLE, before);
    RunsAreKept(cfg, before);
    var ready := AfterAll(cfg, st, waiting);
    WaitingRun(cfg, st, waiting, list);
    var begun := Happens(cfg, ready, start);
    StartingEvent(cfg, ready, start, Known(list, ready.log[|st.log|..]));
    EventKeeps(cfg, ready, start);
    var end := AfterAll(cfg, begun, playing);
    RunKeeps(cfg, begun, playing);
    PlayingRun(cfg, begun, playing);
    HeardInParts(list, st.log, ready.log, begun.log, end.log);
    SamePlayersMirror(cfg, end, IdsOf(Known(list, end.log[|st.log|..])), |st.log|);
  }

  /** What a client knows in the end is what it knew when the game started. */
  lemma {:induction false} HeardInParts(list: seq<Entry>, a: seq<Message>, b: seq<Message>, c: seq<Message>,
                                        d: seq<Message>)
    requires a <= b <= c <= d && Quiet(b[|a|..]) && !Quiet(c[|b|..])
    ensures a <= d && Known(list, d[|a|..]) == Known(Known(list, b[|a|..]), c[|b|..]) && HasGameStart(d, |a|)
  {
    hide Known, Quiet, HasGameStart;
    assert d[|a|..] == b[|a|..] + d[|b|..] && d[|b|..] == c[|b|..] + d[|c|..];
    KnownSplits(list, b[|a|..], d[|b|..]);
    KnownSplits(Known(list, b[|a|..]), c[|b|..], d[|c|..]);
    QuietParts(c[|b|..], d[|c|..]);
    QuietParts(b[|a|..], d[|b|..]);
    QuietHasNoStart(d, |a|);
  }
}
