/** What every tick of a game keeps, over level restarts and level changes. */
module GameInvariants {
  import opened Geometry
  import opened Definitions
  import opened Scores
  import opened Snakes
  import opened LevelModel
  import opened LevelInvariants

  // ---------------------------------------------------------------- one level

  /** None of the snakes of the level started on a wall. */
  ghost predicate StartsClear(l: LevelState) {
    forall p :: IsStart(l, p) ==> !l.def.IsWall(p)
  }

  /** The level as it is between ticks that kill nobody. */
  ghost predicate Sound(l: LevelState) {
    && l.def.WellFormed() && l.def.randomBlocks == [] && |l.snakes| <= |l.def.starts|
    && l.Ready()
    && Agreement(l)
    && AllHangTogether(l)
    && (StartsClear(l) ==> WallsStand(l))
    && NumberShown(l)
    && 1 <= l.number.value <= LAST_NUMBER
    && (exists corner :: Corner(l, corner))
  }

  ghost predicate Corner(l: LevelState, corner: Point) {
    && l.number.position == NumberBlock(corner)
    && corner.x + NUMBER_WIDTH <= l.def.w && corner.y + NUMBER_HEIGHT <= l.def.h
  }

  lemma {:induction false} SoundLevelCanTick(l: LevelState)
    requires Sound(l)
    ensures l.Ready() && l.NumberFits() && l.def.w < WORD && l.def.h < WORD
    ensures 1 <= l.number.value <= LAST_NUMBER
  {
    var corner :| Corner(l, corner);
  }

  lemma {:induction false} FirstIsSound(settings: GameSettings, def: LevelDefinition, players: seq<PlayerId>,
                                        corners: seq<Point>)
    requires def.WellFormed() && def.randomBlocks == [] && settings.startLength < WORD && |players| <= |def.starts|
    requires forall i, j :: 0 <= i < j < |players| ==> players[i] != players[j]
    requires StartOfLevel(settings, def, players).Placeable(corners)
    ensures Sound(FirstOfLevel(settings, def, players, corners))
    ensures FirstOfLevel(settings, def, players, corners).number.value == 1
    ensures FirstOfLevel(settings, def, players, corners).def == def
    ensures FirstOfLevel(settings, def, players, corners).snakes == StartOfLevel(settings, def, players).snakes
  {
    var l := StartOfLevel(settings, def, players);
    StartAgrees(settings, def, players);
    BareStart(settings, def, players);
    var n := l.Drawn(corners, 1);
    PlacingNumber(l, n);
    hide Agreement, WallsStand, NumberShown, NumberWithin, AllHangTogether, LevelState.Ready, LevelState.LaidOut,
         FreeBlock;
    var corner :| corner in corners && l.Free(corner) && n == Number(NumberBlock(corner), 1);
    FreeFits(l, corner);
    assert Corner(l.WithNumber(n), corner);
  }

  lemma {:induction false} FreeFits(l: LevelState, corner: Point)
    requires l.Free(corner)
    ensures corner.x + NUMBER_WIDTH <= l.def.w && corner.y + NUMBER_HEIGHT <= l.def.h
  {
  }

  lemma {:induction false} BareStart(settings: GameSettings, def: LevelDefinition, players: seq<PlayerId>)
    requires def.WellFormed() && settings.startLength < WORD && |players| <= |def.starts|
    requires forall i, j :: 0 <= i < j < |players| ==> players[i] != players[j]
    ensures
      var l := StartOfLevel(settings, def, players);
      && l.Ready() && NumberWithin(l) && AllHangTogether(l)
      && (StartsClear(l) ==> WallsStand(l))
  {
    var l := StartOfLevel(settings, def, players);
    forall i | 0 <= i < |players|
      ensures l.snakes[i].points == [def.starts[i].point] && IsStart(l, def.starts[i].point)
      ensures OnBoard(def.starts[i].point, def.w, def.h)
    {
      assert def.starts[i] in def.starts;
    }
    if StartsClear(l) {
      StartHasWalls(settings, def, players);
    }
  }

  /** Placing a number on free cells turns a level that shows at most remains of the old number into
      one that shows the new one. */
  lemma {:induction false} PlacingNumber(l: LevelState, n: Number)
    requires l.Ready() && Agreement(l) && AllHangTogether(l) && (StartsClear(l) ==> WallsStand(l)) && NumberWithin(l)
    requires exists corner :: l.Free(corner) && n.position == NumberBlock(corner)
    ensures
      var t := l.WithNumber(n);
      t.Ready() && Agreement(t) && AllHangTogether(t) && (StartsClear(t) ==> WallsStand(t)) && NumberShown(t)
  {
    NumberKeepsAgreement(l, n);
    if StartsClear(l) {
      NumberKeepsWalls(l, n);
    }
    NewNumberShown(l, n);
    assert forall p :: IsStart(l.WithNumber(n), p) <==> IsStart(l, p);
  }

  /** Of a tick that kills nobody, the level keeps everything but the number. */
  lemma {:induction false} SurvivingTick(settings: GameSettings, l: LevelState, moves: Moves)
    requires Sound(l) && Casualties(l, moves) == {}
    ensures
      var t := Ticked(settings, l, moves);
      && t.Ready() && Agreement(t) && AllHangTogether(t) && (StartsClear(t) ==> WallsStand(t)) && NumberWithin(t)
      && (Eaters(l, moves) == {} ==> NumberShown(t))
      && t.def == l.def && t.number == l.number && |t.snakes| == |l.snakes|
      && forall i :: 0 <= i < |l.snakes| ==> t.snakes[i].player == l.snakes[i].player
  {
    var t := Ticked(settings, l, moves);
    TickKeepsAgreement(settings, l, moves);
    TickKeepsTogether(settings, l, moves);
    TickKeepsNumberWithin(settings, l, moves);
    if Eaters(l, moves) == {} {
      TickKeepsNumberShown(settings, l, moves);
    }
    TickedKeepsReady(settings, l, moves);
    assert forall p :: IsStart(t, p) <==> IsStart(l, p);
    if StartsClear(l) {
      TickKeepsWalls(settings, l, moves);
    }
  }

  lemma {:induction false} TickedKeepsReady(settings: GameSettings, l: LevelState, moves: Moves)
    requires l.Ready() && Casualties(l, moves) == {}
    ensures
      var t := Ticked(settings, l, moves);
      && t.Ready() && t.def == l.def && t.number == l.number && |t.snakes| == |l.snakes|
      && forall i :: 0 <= i < |l.snakes| ==> t.snakes[i].player == l.snakes[i].player
  {
    var t := Ticked(settings, l, moves);
    forall i | 0 <= i < |l.snakes|
      ensures t.snakes[i].points != [] && t.snakes[i].Within(l.def.w, l.def.h)
      ensures t.snakes[i].player == l.snakes[i].player
    {
      hide Ticked, Casualties, LevelState.TurnPhase, LevelState.Fates;
      SnakeAfterTick(settings, l, moves, i);
      NobodyDies(l, moves, i);
      RedirectedSnake(l.snakes[i], moves);
    }
    TurnKeepsReady(l, moves);
    HeadsKeepReady(settings, l.TurnPhase(moves));
  }

  /** A tick of the server that kills nobody and does not finish the level leaves a sound level. */
  lemma {:induction false} ProgressIsSound(settings: GameSettings, l: LevelState, moves: Moves, sb: ScoreBoard,
                                           corners: seq<Point>)
    requires Sound(l) && l.Scorable(sb) && Casualties(l, moves) == {}
    requires AsksForNumber(l, moves, sb) ==> Ticked(settings, l, moves).Placeable(corners)
    requires ProgressedResult(l, moves, sb) != AdvanceLevel
    ensures
      var t := Progressed(settings, l, moves, sb, corners);
      && Sound(t) && t.def == l.def && t.snakes == Ticked(settings, l, moves).snakes
      && t.number.value == l.number.value + (if Eaters(l, moves) != {} then 1 else 0)
      && |t.snakes| == |l.snakes|
      && forall i :: 0 <= i < |l.snakes| ==> t.snakes[i].player == l.snakes[i].player
  {
    hide Sound, Ticked, Eaters, Casualties, Outcome, LevelState.WithNumber, LevelState.Ready, LevelState.Scorable,
         Agreement, AllHangTogether, StartsClear, WallsStand, NumberWithin, NumberShown, LevelState.Placeable;
    SoundLevelCanTick(l);
    SurvivingTick(settings, l, moves);
    SurvivorsResult(l, moves, sb);
    if Eaters(l, moves) == {} {
      QuietTickIsSound(settings, l, moves);
    } else {
      FedTickIsSound(settings, l, moves, corners);
    }
  }

  lemma {:induction false} SurvivorsResult(l: LevelState, moves: Moves, sb: ScoreBoard)
    requires l.Ready() && Casualties(l, moves) == {}
    ensures TickedResult(l, moves, sb) == if Eaters(l, moves) != {} then NumberEaten else NoResult
  {
  }

  lemma {:induction false} QuietTickIsSound(settings: GameSettings, l: LevelState, moves: Moves)
    requires Sound(l) && Casualties(l, moves) == {} && Eaters(l, moves) == {}
    ensures Sound(Ticked(settings, l, moves))
  {
    SurvivingTick(settings, l, moves);
    hide Agreement, WallsStand, NumberShown, AllHangTogether, LevelState.Ready, StartsClear, Ticked;
    var corner :| Corner(l, corner);
    assert Corner(Ticked(settings, l, moves), corner);
  }

  lemma {:induction false} FedTickIsSound(settings: GameSettings, l: LevelState, moves: Moves, corners: seq<Point>)
    requires Sound(l) && Casualties(l, moves) == {} && l.number.value < LAST_NUMBER
    requires Ticked(settings, l, moves).Placeable(corners)
    ensures
      var t := Ticked(settings, l, moves);
      var u := t.WithNumber(t.Drawn(corners, l.number.value + 1));
      Sound(u) && u.def == l.def && u.snakes == t.snakes && u.number.value == l.number.value + 1
  {
    hide Agreement, WallsStand, NumberShown, NumberWithin, AllHangTogether, LevelState.Ready, FreeBlock, Ticked,
         StartsClear, Casualties, LevelDefinition.WellFormed, NumberBlock, LevelState.NumberFits, FirstFree;
    SurvivingTick(settings, l, moves);
    var t := Ticked(settings, l, moves);
    var n := t.Drawn(corners, l.number.value + 1);
    var corner :| corner in corners && t.Free(corner) && n == Number(NumberBlock(corner), l.number.value + 1);
    PlacingNumber(t, n);
    FreeFits(t, corner);
    assert Corner(t.WithNumber(n), corner);
  }
}
