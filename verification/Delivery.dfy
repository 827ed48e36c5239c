/** The whole way from the server's game to what a client shows: the messages of the log travel as
    packets over a link. How a message becomes bytes is left open; for the messages of the log it can be
    undone, and they are short enough to be sent. */
module Delivery {
  import opened Sequences
  import opened Geometry
  import opened Definitions
  import opened Framing
  import opened Links
  import opened GameModel
  import opened Replica
  import opened ServerModel
  import opened ServerInvariants

  type Encoder = Message -> Bytes
  type Decoder = Bytes -> Option<Message>

  /** The messages of a log can be encoded, sent and decoded. */
  ghost predicate Lossless(encode: Encoder, decode: Decoder, log: seq<Message>) {
    forall i :: 0 <= i < |log| ==> decode(encode(log[i])) == Some(log[i]) && |encode(log[i])| <= MAX_PACKET
  }

  /** The messages in a sequence of packets. Packets that are no message do not occur here. */
  function Decoded(decode: Decoder, packets: seq<Bytes>): seq<Message> {
    if packets == [] then []
    else
      var m := decode(packets[|packets| - 1]);
      Decoded(decode, packets[..|packets| - 1]) + if m.Some? then [m.value] else []
  }

  lemma {:induction false} PrefixDecoded(encode: Encoder, decode: Decoder, log: seq<Message>, packets: seq<Bytes>)
    requires Lossless(encode, decode, log) && packets <= MapSeq(encode, log)
    ensures |packets| <= |log| && Decoded(decode, packets) == log[..|packets|]
    decreases |packets|
  {
    if packets != [] {
      var n := |packets| - 1;
      PrefixDecoded(encode, decode, log, packets[..n]);
      assert packets[n] == encode(log[n]);
      assert log[..n + 1] == log[..n] + [log[n]];
    }
  }

  /** However the packets of the log are sent, written and read: what a client decodes is a prefix of
      the log. */
  lemma {:induction false} LogArrivesInOrder(encode: Encoder, decode: Decoder, log: seq<Message>, steps: seq<Step>)
    requires Lossless(encode, decode, log) && Links.Run(UNUSED, steps)
    requires Links.AfterAll(UNUSED, steps).accepted == MapSeq(encode, log)
    ensures
      var l := Links.AfterAll(UNUSED, steps);
      && Decoded(decode, l.delivered) <= log
      && |Decoded(decode, l.delivered)| == |l.delivered|
      && (Distance(l) == 0 ==> Decoded(decode, l.delivered) == log)
  {
    hide Links.Run, Links.AfterAll, Lossless, Distance, Sound;
    var l := Links.AfterAll(UNUSED, steps);
    DeliveredInOrder(steps);
    UnusedIsSound();
    RunIsSound(UNUSED, steps);
    PrefixDecoded(encode, decode, log, l.delivered);
    if Distance(l) == 0 {
      NothingOnTheWay(l);
    }
  }

  lemma {:induction false} UnusedIsSound()
    ensures Sound(UNUSED)
  {
  }

  // ---------------------------------------------------------------- clients that connect later

  predicate HasGameStart(log: seq<Message>, start: nat) {
    exists i :: start <= i < |log| && log[i].GameStart?
  }

  lemma {:induction false} BegunIsAnnounced(cfg: Config, st: ServerState, starting: Choice, ticking: Choice)
    requires StartDraws(cfg, st, starting, ticking) && StartSurvives(cfg, st, starting, ticking)
    requires st.game.None? && StartChecked(cfg, st, starting, ticking).game.Some?
    ensures HasGameStart(StartChecked(cfg, st, starting, ticking).log, |st.log|)
  {
    hide TickSafe, TickServed, StartServed, TickOf;
    var s := GameBegun(cfg, st, starting);
    TickExtendsLog(cfg, s, cfg.countdown, ticking);
    assert s.log[|st.log|].GameStart?;
  }

  /** A game that begins is announced. */
  lemma {:induction false} GamesAreAnnounced(cfg: Config, st: ServerState, e: Event)
    requires CanHappen(cfg, st, e) && st.game.None? && Happens(cfg, st, e).game.Some?
    ensures HasGameStart(Happens(cfg, st, e).log, |st.log|)
  {
    hide TickServed, StartServed, StartSafe, StartDraws, TickOf, StartChecked, Played, Turned, WillStart;
    match e {
      case AddPlayer(client, name, c, d) => BegunIsAnnounced(cfg, Joined(st, client, name), c, d);
      case SetReadiness(client, ready, c, d) => BegunIsAnnounced(cfg, ReadinessSet(st, client, ready), c, d);
      case PauseCommand(client, player, c) =>
        if Obeys(st, client, player) && st.paused {
          TickStartsNoGame(cfg, Unpaused(st), 0, c);
        }
      case TimerFires(c) =>
        TimersDoNotMatter(st, c);
        TickStartsNoGame(cfg, st.(timers := st.timers[1..]), st.timers[0], c);
      case _ =>
    }
  }

  lemma {:induction false} RunAnnounces(cfg: Config, st: ServerState, events: seq<Event>)
    requires ServerModel.Run(cfg, st, events) && st.game.None?
    ensures st.log <= ServerModel.AfterAll(cfg, st, events).log
    ensures
      var s := ServerModel.AfterAll(cfg, st, events);
      s.game.Some? ==> HasGameStart(s.log, |st.log|)
    decreases |events|
  {
    hide CanHappen, Happens, HasGameStart;
    RunExtendsLog(cfg, st, events, 0);
    if events != [] {
      var next := Happens(cfg, st, events[0]);
      EventExtendsLog(cfg, st, events[0]);
      RunExtendsLog(cfg, next, events[1..], 0);
      if next.game.None? {
        RunAnnounces(cfg, next, events[1..]);
        var log := ServerModel.AfterAll(cfg, st, events).log;
        StillHas(log, log, |st.log|, |next.log|);
      } else {
        GamesAreAnnounced(cfg, st, events[0]);
        StillHas(next.log, ServerModel.AfterAll(cfg, st, events).log, |st.log|, |st.log|);
      }
    }
  }

  lemma {:induction false} StillHas(log: seq<Message>, longer: seq<Message>, start: nat, later: nat)
    requires log <= longer && start <= later
    ensures HasGameStart(log, later) ==> HasGameStart(longer, start)
  {
  }

  /** Two clients, one of which has seen more of the past, show the same once a game has started. */
  lemma {:induction false} ThePastDoesNotMatter(players: seq<PlayerId>, log: seq<Message>, start: nat)
    requires start <= |log| && HasGameStart(log, start)
    ensures Replay(players, log[start..]) == Replay(players, log)
  {
    var i :| start <= i < |log| && log[i].GameStart?;
    assert log == log[..i] + ([log[i]] + log[i + 1..]);
    assert log[start..] == log[start..i] + ([log[i]] + log[i + 1..]);
    OnlySinceGameStart(players, log[..i], log[start..i], log[i].settings, log[i + 1..]);
  }

  lemma {:induction false} RunOfOneMore(cfg: Config, st: ServerState, events: seq<Event>)
    requires events != [] && CanHappen(cfg, st, events[0])
    ensures
      var next := Happens(cfg, st, events[0]);
      && (ServerModel.Run(cfg, st, events) <==> ServerModel.Run(cfg, next, events[1..]))
      && (ServerModel.Run(cfg, st, events) ==>
            ServerModel.AfterAll(cfg, st, events) == ServerModel.AfterAll(cfg, next, events[1..]))
  {
    hide CanHappen, Happens;
  }

  lemma {:induction false} RunSplits(cfg: Config, st: ServerState, events: seq<Event>, j: nat)
    requires ServerModel.Run(cfg, st, events) && j <= |events|
    ensures ServerModel.Run(cfg, st, events[..j])
    ensures
      var s := ServerModel.AfterAll(cfg, st, events[..j]);
      && ServerModel.Run(cfg, s, events[j..])
      && ServerModel.AfterAll(cfg, s, events[j..]) == ServerModel.AfterAll(cfg, st, events)
    decreases |events|
  {
    hide CanHappen, Happens;
    if j == 0 {
      assert events[0..] == events;
    } else {
      assert CanHappen(cfg, st, events[0]);
      hide ServerModel.Run, ServerModel.AfterAll;
      RunOfOneMore(cfg, st, events);
      RunSplits(cfg, Happens(cfg, st, events[0]), events[1..], j - 1);
      assert events[..j][1..] == events[1..][..j - 1] && events[1..][j - 1..] == events[j..];
      RunOfOneMore(cfg, st, events[..j]);
    }
  }

  /** A client that connects after event j, when no game is on, and that is sent everything from then
      on, shows the game as it was after event k once it has received what had been sent by then. */
  lemma {:induction false} ClientsFollowOverALink(cfg: Config, events: seq<Event>, j: nat, k: nat, encode: Encoder,
                                                  decode: Decoder, steps: seq<Step>)
    requires cfg.settings.startLives >= 1 && ServerModel.Run(cfg, IDLE, events) && j <= k <= |events|
    requires ServerModel.Run(cfg, IDLE, events[..j]) && ServerModel.AfterAll(cfg, IDLE, events[..j]).game.None?
    requires Links.Run(UNUSED, steps)
    requires
      var start := |ServerModel.AfterAll(cfg, IDLE, events[..j]).log|;
      var log := ServerModel.AfterAll(cfg, IDLE, events).log;
      start <= |log| && Lossless(encode, decode, log[start..])
      && Links.AfterAll(UNUSED, steps).accepted == MapSeq(encode, log[start..])
    ensures ServerModel.Run(cfg, IDLE, events[..k])
    ensures
      var start := |ServerModel.AfterAll(cfg, IDLE, events[..j]).log|;
      var past, l := ServerModel.AfterAll(cfg, IDLE, events[..k]), Links.AfterAll(UNUSED, steps);
      past.game.Some? && start + |l.delivered| == |past.log| ==>
        Mirrors(Replay(past.game.value.players, Decoded(decode, l.delivered)), past.game.value, past.scorer)
  {
    hide ServerModel.Run, ServerModel.AfterAll, Links.Run, Links.AfterAll, Lossless, Mirrors, Replay, Decoded,
         Distance, LawfulGame, HasGameStart;
    var start, log := |ServerModel.AfterAll(cfg, IDLE, events[..j]).log|, ServerModel.AfterAll(cfg, IDLE, events).log;
    LogArrivesInOrder(encode, decode, log[start..], steps);
    LaggingClientsMirrorThePast(cfg, events, k);
    var past := ServerModel.AfterAll(cfg, IDLE, events[..k]);
    var shown := Decoded(decode, Links.AfterAll(UNUSED, steps).delivered);
    RunSplits(cfg, IDLE, events[..k], j);
    assert events[..k][..j] == events[..j];
    RunAnnounces(cfg, ServerModel.AfterAll(cfg, IDLE, events[..j]), events[..k][j..]);
    if past.game.Some? && start + |shown| == |past.log| {
      assert past.log == log[..|past.log|];
      assert shown == past.log[start..];
      ThePastDoesNotMatter(past.game.value.players, past.log, start);
    }
  }
}
