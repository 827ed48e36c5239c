/** The playing client: it follows the game from the messages of the server, with the same level object
    as the server but no random choice of its own. */
module Clients {
  import opened Geometry
  import opened Definitions
  import opened Scores
  import opened LevelModel
  import opened Levels
  import opened GameModel
  import opened Replica

  class Playing {
    /** The players that the server has told this client of, in that order. */
    const players: seq<PlayerId>
    const settings: GameSettings
    var level: Level?
    const scorer: ScoreTracker

    ghost predicate Valid()
      reads this, level, if level == null then {} else level.Repr()
    {
      level != null ==> level.Valid()
    }

    ghost function Repr(): set<object>
      reads this, level, if level == null then {} else {level.board}
    {
      if level == null then {} else level.Repr()
    }

    ghost function State(): ClientState
      reads this, scorer, level, if level == null then {} else level.Repr()
      requires Valid()
    {
      ClientState(settings, if level == null then None else Some(level.State()), scorer.Board())
    }

    /** A game has been announced: everybody starts with no points and all lives. */
    constructor (players: seq<PlayerId>, settings: GameSettings)
      requires forall i, j :: 0 <= i < j < |players| ==> players[i] != players[j]
      ensures this.players == players && Valid()
      ensures Some(State()) == Received(players, None, GameStart(settings))
    {
      this.players, this.settings, level := players, settings, null;
      scorer := new ScoreTracker();
      new;
      scorer.AddAll(players, settings.startLives);
    }

    method LevelStart(def: LevelDefinition)
      requires Valid() && Received(players, Some(State()), Message.LevelStart(def)).Some?
      modifies this`level
      ensures Valid() && fresh(Repr())
      ensures Some(State()) == Received(players, Some(old(State())), Message.LevelStart(def))
    {
      level := Level.Start(settings, def, players);
    }

    method NewNumber(number: Number)
      requires Valid() && Received(players, Some(State()), Message.NewNumber(number)).Some?
      modifies Repr()
      ensures Valid() && unchanged(this)
      ensures Some(State()) == Received(players, Some(old(State())), Message.NewNumber(number))
    {
      level.SetNumber(number);
    }

    method Tick(moves: Moves)
      requires Valid() && Received(players, Some(State()), TickMessage(moves)).Some?
      modifies scorer, Repr()
      ensures Valid() && unchanged(this)
      ensures Some(State()) == Received(players, Some(old(State())), TickMessage(moves))
    {
      var result := level.Tick(settings, scorer, moves);
    }

    /** A message arrives while the client is playing. The start of another game makes a new object. */
    method Handle(m: Message)
      requires Valid() && !m.GameStart? && Received(players, Some(State()), m).Some?
      modifies this`level, scorer, Repr()
      ensures Valid() && Some(State()) == Received(players, Some(old(State())), m)
    {
      hide Received, State;
      Uninteresting(players, State(), m);
      match m {
        case LevelStart(def) => LevelStart(def);
        case NewNumber(number) => NewNumber(number);
        case TickMessage(moves) => Tick(moves);
        case _ =>
      }
    }
  }

  lemma {:induction false} Uninteresting(players: seq<PlayerId>, c: ClientState, m: Message)
    ensures !m.GameStart? && !m.LevelStart? && !m.NewNumber? && !m.TickMessage? ==>
      Received(players, Some(c), m) == Some(c)
  {
  }
}
