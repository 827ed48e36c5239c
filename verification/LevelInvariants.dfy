/** What every tick keeps: the board agrees with the bodies, walls stay, snakes hang together, and
    the number is where the board shows it. */
module LevelInvariants {
  import opened Geometry
  import opened Definitions
  import opened Boards
  import opened Snakes
  import opened LevelModel

  /** The cells on which the snakes of a level start. They are not marked on the board. */
  ghost predicate IsStart(l: LevelState, p: Point) {
    exists i :: 0 <= i < |l.snakes| && i < |l.def.starts| && l.def.starts[i].point == p
  }

  /** The k-th cell of the i-th body is p. */
  ghost predicate Lies(snakes: seq<SnakeState>, i: int, k: int, p: Point) {
    0 <= i < |snakes| && 0 <= k < |snakes[i].points| && snakes[i].points[k] == p
  }

  ghost predicate Covered(snakes: seq<SnakeState>, p: Point) {
    exists i, k :: Lies(snakes, i, k, p)
  }

  // ---------------------------------------------------------------- board and bodies

  ghost predicate MarkedIsCovered(l: LevelState) {
    forall p :: p in l.grid && l.grid[p] == SnakeCell ==> Covered(l.snakes, p)
  }

  ghost predicate BodiesAreMarked(l: LevelState) {
    forall p, i, k :: Lies(l.snakes, i, k, p) && !IsStart(l, p) ==> p in l.grid && l.grid[p] == SnakeCell
  }

  ghost predicate BodiesAreDisjoint(l: LevelState) {
    forall p, i, k, j, m ::
      Lies(l.snakes, i, k, p) && Lies(l.snakes, j, m, p) && !IsStart(l, p) ==> i == j && k == m
  }

  /** The board agrees with the bodies: off the start cells a cell is marked exactly when some body
      has it, and then it occurs only once in all bodies; a marked start cell is in some body. */
  ghost predicate Agreement(l: LevelState) {
    MarkedIsCovered(l) && BodiesAreMarked(l) && BodiesAreDisjoint(l)
  }

  lemma {:induction false} StartAgrees(settings: GameSettings, def: LevelDefinition, players: seq<PlayerId>)
    requires settings.startLength < WORD && |players| <= |def.starts|
    ensures Agreement(StartOfLevel(settings, def, players))
  {
    var l := StartOfLevel(settings, def, players);
    forall p, i, k | Lies(l.snakes, i, k, p)
      ensures IsStart(l, p)
    {
      assert l.snakes[i].points == [def.starts[i].point];
    }
  }

  lemma {:induction false} TurnKeepsAgreement(l: LevelState, moves: Moves)
    requires Agreement(l)
    ensures Agreement(l.TurnPhase(moves))
  {
    var t := l.TurnPhase(moves);
    forall p, i, k
      ensures Lies(t.snakes, i, k, p) <==> Lies(l.snakes, i, k, p)
    {
      if 0 <= i < |l.snakes| {
        RedirectedSnake(l.snakes[i], moves);
      }
    }
    assert forall p :: IsStart(t, p) <==> IsStart(l, p);
  }

  /** A cell that a surviving snake enters is entered by no other snake and is not marked. */
  lemma {:induction false} EnteredCell(l: LevelState, i: nat)
    requires l.Ready() && i < |l.snakes| && l.Fates()[i] != Dead
    ensures forall j :: 0 <= j < |l.snakes| && l.Heads()[j] == l.Heads()[i] ==> j == i
    ensures l.grid[l.Heads()[i]] == if l.Fates()[i] == NumberEaten then NumberCell else EmptyCell
  {
    forall j | 0 <= j < |l.snakes| && l.Heads()[j] == l.Heads()[i]
      ensures j == i
    {
      if i < j { SharedHead(l.Heads(), i, j); }
      if j < i { SharedHead(l.Heads(), j, i); }
    }
  }

  /** How the bodies change when the heads advance: each survivor gets its new head in front. */
  lemma {:induction false} HeadLies(settings: GameSettings, l: LevelState, i: nat, k: int, p: Point)
    requires l.Ready() && i < |l.snakes|
    ensures
      var t := AfterHeads(settings, l);
      Lies(t.snakes, i, k, p) <==>
        if l.Fates()[i] == Dead then Lies(l.snakes, i, k, p)
        else if k == 0 then p == l.Heads()[i]
        else Lies(l.snakes, i, k - 1, p)
  {
  }

  lemma {:induction false} HeadsKeepAgreement(settings: GameSettings, l: LevelState)
    requires l.Ready() && Agreement(l)
    ensures Agreement(AfterHeads(settings, l))
  {
    var t := AfterHeads(settings, l);
    assert forall p :: IsStart(t, p) <==> IsStart(l, p);
    forall p | p in t.grid && t.grid[p] == SnakeCell
      ensures Covered(t.snakes, p)
    {
      HeadsKeepMarkedCovered(settings, l, p);
    }
    forall p, i, k | Lies(t.snakes, i, k, p) && !IsStart(l, p)
      ensures p in t.grid && t.grid[p] == SnakeCell
    {
      HeadsMarkBodies(settings, l, p, i, k);
    }
    forall p, i, k, j, m | Lies(t.snakes, i, k, p) && Lies(t.snakes, j, m, p) && !IsStart(l, p)
      ensures i == j && k == m
    {
      HeadsKeepDisjoint(settings, l, p, i, k, j, m);
    }
  }

  lemma {:induction false} HeadsKeepMarkedCovered(settings: GameSettings, l: LevelState, p: Point)
    requires l.Ready() && Agreement(l)
    requires var t := AfterHeads(settings, l); p in t.grid && t.grid[p] == SnakeCell
    ensures Covered(AfterHeads(settings, l).snakes, p)
  {
    assert AfterHeads(settings, l).grid == Paint(l.grid, Claimed(l.Heads(), l.Fates()), SnakeCell);
    hide AfterHeads, LevelState.Fates, LevelState.Heads;
    if p in Claimed(l.Heads(), l.Fates()) {
      var i :| 0 <= i < |l.snakes| && l.Fates()[i] != Dead && l.Heads()[i] == p;
      HeadLies(settings, l, i, 0, p);
    } else {
      var i, k :| Lies(l.snakes, i, k, p);
      HeadLies(settings, l, i, if l.Fates()[i] == Dead then k else k + 1, p);
    }
  }

  lemma {:induction false} HeadsMarkBodies(settings: GameSettings, l: LevelState, p: Point, i: int, k: int)
    requires l.Ready() && Agreement(l) && !IsStart(l, p)
    requires Lies(AfterHeads(settings, l).snakes, i, k, p)
    ensures var t := AfterHeads(settings, l); p in t.grid && t.grid[p] == SnakeCell
  {
    HeadLies(settings, l, i, k, p);
    if l.Fates()[i] != Dead && k == 0 {
      assert l.Heads()[i] in Claimed(l.Heads(), l.Fates());
    }
  }

  lemma {:induction false} HeadsKeepDisjoint(settings: GameSettings, l: LevelState, p: Point, i: int, k: int, j: int,
                                             m: int)
    requires l.Ready() && Agreement(l) && !IsStart(l, p)
    requires var t := AfterHeads(settings, l); Lies(t.snakes, i, k, p) && Lies(t.snakes, j, m, p)
    ensures i == j && k == m
  {
    HeadLies(settings, l, i, k, p);
    HeadLies(settings, l, j, m, p);
    if l.Fates()[i] != Dead && k == 0 { EnteredCell(l, i); }
    if l.Fates()[j] != Dead && m == 0 { EnteredCell(l, j); }
  }

  /** How the bodies change when the tails are drawn in: some lose their last cell. */
  lemma {:induction false} TailLies(l: LevelState, i: nat, k: int, p: Point)
    requires l.Ready() && i < |l.snakes|
    ensures Lies(l.TailPhase().snakes, i, k, p) <==>
      Lies(l.snakes, i, k, p) && (l.snakes[i].pendingGrowth == 0 ==> k != |l.snakes[i].points| - 1)
  {
  }

  lemma {:induction false} VacatedLast(snakes: seq<SnakeState>, i: nat)
    requires i < |snakes| && forall j :: 0 <= j < |snakes| ==> snakes[j].points != []
    ensures snakes[i].pendingGrowth == 0 ==> snakes[i].points[|snakes[i].points| - 1] in Vacated(snakes)
  {
  }

  lemma {:induction false} TailsKeepAgreement(l: LevelState)
    requires l.Ready() && Agreement(l)
    ensures Agreement(l.TailPhase())
  {
    var t := l.TailPhase();
    assert forall p :: IsStart(t, p) <==> IsStart(l, p);
    forall p | p in t.grid && t.grid[p] == SnakeCell
      ensures Covered(t.snakes, p)
    {
      var i, k :| Lies(l.snakes, i, k, p);
      VacatedLast(l.snakes, i);
      TailLies(l, i, k, p);
    }
    forall p, i, k | Lies(t.snakes, i, k, p) && !IsStart(l, p)
      ensures p in t.grid && t.grid[p] == SnakeCell
    {
      TailLies(l, i, k, p);
      if p in Vacated(l.snakes) {
        var j :| 0 <= j < |l.snakes| && l.snakes[j].pendingGrowth == 0
          && l.snakes[j].points[|l.snakes[j].points| - 1] == p;
        assert Lies(l.snakes, j, |l.snakes[j].points| - 1, p);
      }
    }
    forall p, i, k, j, m | Lies(t.snakes, i, k, p) && Lies(t.snakes, j, m, p) && !IsStart(l, p)
      ensures i == j && k == m
    {
      TailLies(l, i, k, p);
      TailLies(l, j, m, p);
    }
  }

  /** Every tick, deadly or not, keeps the agreement. */
  lemma {:induction false} TickKeepsAgreement(settings: GameSettings, l: LevelState, moves: Moves)
    requires l.Ready() && Agreement(l)
    ensures Agreement(Ticked(settings, l, moves))
  {
    var turned := l.TurnPhase(moves);
    TurnKeepsReady(l, moves);
    TurnKeepsAgreement(l, moves);
    HeadsKeepReady(settings, turned);
    HeadsKeepAgreement(settings, turned);
    TailsKeepAgreement(AfterHeads(settings, turned));
  }

  /** Placing a number on empty cells keeps the agreement. */
  lemma {:induction false} NumberKeepsAgreement(l: LevelState, n: Number)
    requires l.LaidOut() && Agreement(l)
    requires forall p :: p in n.position.Cells() ==> p in l.grid && l.grid[p] == EmptyCell
    ensures Agreement(l.WithNumber(n))
  {
    var t := l.WithNumber(n);
    assert forall p :: IsStart(t, p) <==> IsStart(l, p);
    assert forall p :: p in t.grid && t.grid[p] == SnakeCell <==> p in l.grid && l.grid[p] == SnakeCell;
  }

  // ---------------------------------------------------------------- walls

  /** The walls on the board are those of the definition, and no body touches them. */
  ghost predicate WallsStand(l: LevelState) {
    && (forall p :: p in l.grid ==> (l.grid[p] == WallCell <==> l.def.IsWall(p)))
    && (forall p, i, k :: Lies(l.snakes, i, k, p) ==> !l.def.IsWall(p))
  }

  /** The walls stand at the start of a level exactly if no snake starts on one. */
  lemma {:induction false} StartHasWalls(settings: GameSettings, def: LevelDefinition, players: seq<PlayerId>)
    requires def.WellFormed() && settings.startLength < WORD && |players| <= |def.starts|
    ensures WallsStand(StartOfLevel(settings, def, players))
       <==> forall i :: 0 <= i < |players| ==> !def.IsWall(def.starts[i].point)
  {
    var l := StartOfLevel(settings, def, players);
    forall i, k, p | Lies(l.snakes, i, k, p)
      ensures p == def.starts[i].point
    {
      assert l.snakes[i].points == [def.starts[i].point];
    }
    forall i | 0 <= i < |players|
      ensures Lies(l.snakes, i, 0, def.starts[i].point)
    {
      assert l.snakes[i].points == [def.starts[i].point];
    }
  }

  lemma {:induction false} TurnKeepsWalls(l: LevelState, moves: Moves)
    requires l.Ready() && WallsStand(l)
    ensures WallsStand(l.TurnPhase(moves))
  {
    forall p, i, k | Lies(l.TurnPhase(moves).snakes, i, k, p)
      ensures !l.def.IsWall(p)
    {
      RedirectedSnake(l.snakes[i], moves);
      assert Lies(l.snakes, i, k, p);
    }
  }

  lemma {:induction false} HeadsKeepWalls(settings: GameSettings, l: LevelState)
    requires l.Ready() && WallsStand(l)
    ensures WallsStand(AfterHeads(settings, l))
  {
    var t := AfterHeads(settings, l);
    hide LevelDefinition.IsWall;
    forall p, i, k | Lies(t.snakes, i, k, p)
      ensures !l.def.IsWall(p)
    {
      HeadLies(settings, l, i, k, p);
      if l.Fates()[i] != Dead && k == 0 { EnteredCell(l, i); }
    }
    forall p | p in l.grid
      ensures t.grid[p] == WallCell <==> l.grid[p] == WallCell
    {
      if p in Claimed(l.Heads(), l.Fates()) {
        var i :| 0 <= i < |l.snakes| && l.Fates()[i] != Dead && l.Heads()[i] == p;
        EnteredCell(l, i);
      }
    }
  }

  lemma {:induction false} TailsKeepWalls(l: LevelState)
    requires l.Ready() && WallsStand(l)
    ensures WallsStand(l.TailPhase())
  {
    var t := l.TailPhase();
    hide LevelDefinition.IsWall;
    forall p | p in l.grid
      ensures t.grid[p] == WallCell <==> l.grid[p] == WallCell
    {
      if p in Vacated(l.snakes) {
        var j :| 0 <= j < |l.snakes| && l.snakes[j].pendingGrowth == 0
          && l.snakes[j].points[|l.snakes[j].points| - 1] == p;
        assert Lies(l.snakes, j, |l.snakes[j].points| - 1, p);
      }
    }
    forall p, i, k | Lies(t.snakes, i, k, p)
      ensures !l.def.IsWall(p)
    {
      TailLies(l, i, k, p);
    }
  }

  lemma {:induction false} TickKeepsWalls(settings: GameSettings, l: LevelState, moves: Moves)
    requires l.Ready() && WallsStand(l)
    ensures WallsStand(Ticked(settings, l, moves))
  {
    var turned := l.TurnPhase(moves);
    TurnKeepsReady(l, moves);
    HeadsKeepReady(settings, turned);
    hide WallsStand;
    TurnKeepsWalls(l, moves);
    HeadsKeepWalls(settings, turned);
    TailsKeepWalls(AfterHeads(settings, turned));
  }

  lemma {:induction false} NumberKeepsWalls(l: LevelState, n: Number)
    requires WallsStand(l)
    requires forall p :: p in n.position.Cells() ==> p in l.grid && l.grid[p] == EmptyCell
    ensures WallsStand(l.WithNumber(n))
  {
  }

  // ---------------------------------------------------------------- bodies hang together

  predicate Neighbours(p: Point, q: Point, w: nat, h: nat) {
    OnBoard(q, w, h) && exists d: Direction :: p == Adjacent(q, d, w, h)
  }

  /** Consecutive cells of a body are neighbours. */
  ghost predicate Chained(points: seq<Point>, w: nat, h: nat) {
    forall k :: 0 < k < |points| ==> Neighbours(points[k - 1], points[k], w, h)
  }

  /** A body is chained and its neck lies straight behind the head. */
  ghost predicate HangsTogether(s: SnakeState, w: nat, h: nat) {
    && s.Within(w, h)
    && Chained(s.points, w, h)
    && (|s.points| >= 2 ==> s.points[0] == Adjacent(s.points[1], s.direction, w, h))
  }

  ghost predicate AllHangTogether(l: LevelState) {
    forall i :: 0 <= i < |l.snakes| ==> HangsTogether(l.snakes[i], l.def.w, l.def.h)
  }

  /** A snake moves its head to the next cell and draws in its tail. */
  ghost function MovedOn(s: SnakeState, fate: TickResult, growth: nat, w: nat, h: nat): SnakeState
    requires s.points != [] && s.Within(w, h)
  {
    Advanced(s, s.NextHead(w, h), fate, growth).Retracted()
  }

  /** What a tick makes of one snake. */
  lemma {:induction false} SnakeAfterTick(settings: GameSettings, l: LevelState, moves: Moves, i: nat)
    requires l.Ready() && i < |l.snakes|
    ensures l.TurnPhase(moves).Ready()
    ensures l.TurnPhase(moves).snakes[i] == Redirected(l.snakes[i], moves)
    ensures Redirected(l.snakes[i], moves).points != [] && Redirected(l.snakes[i], moves).Within(l.def.w, l.def.h)
    ensures
      var s, snakes := Redirected(l.snakes[i], moves), Ticked(settings, l, moves).snakes;
      && |snakes| == |l.snakes|
      && snakes[i]
      == MovedOn(s, l.TurnPhase(moves).Fates()[i], l.number.value * settings.growthFactor, l.def.w, l.def.h)
  {
    TurnKeepsReady(l, moves);
    HeadsKeepReady(settings, l.TurnPhase(moves));
  }

  lemma {:induction false} NobodyDies(l: LevelState, moves: Moves, i: nat)
    requires l.Ready() && Casualties(l, moves) == {} && i < |l.snakes|
    ensures l.TurnPhase(moves).Fates()[i] != Dead
  {
    var a := l.TurnPhase(moves);
    MeetsItsFate(Dead, a.snakes, a.Fates(), i);
  }

  lemma {:induction false} MovedHangsTogether(s: SnakeState, fate: TickResult, growth: nat, w: nat, h: nat)
    requires s.Within(w, h) && s.points != [] && fate != Dead
    requires Chained(s.points, w, h)
    ensures HangsTogether(MovedOn(s, fate, growth, w, h), w, h)
  {
    var next := s.NextHead(w, h);
    var points := [next] + s.points;
    assert Neighbours(next, s.points[0], w, h);
    hide Neighbours;
    forall k | 0 < k < |points|
      ensures Neighbours(points[k - 1], points[k], w, h)
    {
      if k > 1 {
        assert points[k - 1] == s.points[k - 2] && points[k] == s.points[k - 1];
      }
    }
    assert forall k :: 0 <= k < |points| ==> OnBoard(points[k], w, h);
  }

  /** A tick that kills nobody keeps all bodies together. */
  lemma {:induction false} TickKeepsTogether(settings: GameSettings, l: LevelState, moves: Moves)
    requires l.Ready() && AllHangTogether(l) && Casualties(l, moves) == {}
    ensures AllHangTogether(Ticked(settings, l, moves))
  {
    forall i | 0 <= i < |l.snakes|
      ensures HangsTogether(Ticked(settings, l, moves).snakes[i], l.def.w, l.def.h)
    {
      SnakeStaysTogether(settings, l, moves, i);
    }
  }

  lemma {:induction false} SnakeStaysTogether(settings: GameSettings, l: LevelState, moves: Moves, i: nat)
    requires l.Ready() && i < |l.snakes| && Casualties(l, moves) == {}
    requires HangsTogether(l.snakes[i], l.def.w, l.def.h)
    ensures i < |Ticked(settings, l, moves).snakes|
    ensures HangsTogether(Ticked(settings, l, moves).snakes[i], l.def.w, l.def.h)
  {
    hide HangsTogether, Ticked, Casualties, MovedOn, LevelState.TurnPhase, LevelState.Fates;
    SnakeAfterTick(settings, l, moves, i);
    NobodyDies(l, moves, i);
    RedirectedSnake(l.snakes[i], moves);
    ChainedBody(l.snakes[i], l.def.w, l.def.h);
    var s := Redirected(l.snakes[i], moves);
    MovedHangsTogether(s, l.TurnPhase(moves).Fates()[i], l.number.value * settings.growthFactor, l.def.w, l.def.h);
  }

  lemma {:induction false} ChainedBody(s: SnakeState, w: nat, h: nat)
    requires HangsTogether(s, w, h)
    ensures Chained(s.points, w, h)
  {
  }

  /** Off the walls, consecutive cells of a body differ by one step, and no step a snake could take next
      wraps round. */
  lemma {:induction false} NoWrapRound(l: LevelState, i: nat)
    requires l.Ready() && WallsStand(l) && AllHangTogether(l) && i < |l.snakes|
    ensures forall k :: 0 <= k < |l.snakes[i].points| ==> Interior(l.snakes[i].points[k], l.def.w, l.def.h)
    ensures forall k :: 0 < k < |l.snakes[i].points| ==> UnitStep(l.snakes[i].points[k - 1], l.snakes[i].points[k])
    ensures forall d: Direction ::
      UnitStep(l.snakes[i].points[0], Adjacent(l.snakes[i].points[0], d, l.def.w, l.def.h))
  {
    var s, w, h := l.snakes[i], l.def.w, l.def.h;
    forall k | 0 <= k < |s.points|
      ensures Interior(s.points[k], w, h)
    {
      assert Lies(l.snakes, i, k, s.points[k]);
    }
    forall k | 0 < k < |s.points|
      ensures UnitStep(s.points[k - 1], s.points[k])
    {
      assert Neighbours(s.points[k - 1], s.points[k], w, h);
      var d :| s.points[k - 1] == Adjacent(s.points[k], d, w, h);
      InteriorStep(s.points[k], d, w, h);
    }
    forall d: Direction
      ensures UnitStep(s.points[0], Adjacent(s.points[0], d, w, h))
    {
      InteriorStep(s.points[0], d, w, h);
    }
  }

  /** The cell a snake enters after some moves is not its own neck. */
  ghost predicate AvoidsNeck(s: SnakeState, moves: Moves, w: nat, h: nat) {
    |s.points| >= 2 && OnBoard(s.points[0], w, h) ==>
      Adjacent(s.points[0], Redirected(s, moves).direction, w, h) != s.points[1]
  }

  /** On boards of at least 3 by 3 cells a snake never runs into its own neck, however it is told to turn. */
  lemma {:induction false} NeverIntoTheNeck(s: SnakeState, moves: Moves, w: nat, h: nat)
    requires HangsTogether(s, w, h) && w >= 3 && h >= 3
    ensures AvoidsNeck(s, moves, w, h)
  {
    if |s.points| >= 2 {
      var t := Redirected(s, moves);
      OppositeUndoes(s.points[1], s.direction, w, h);
      NeighboursDiffer(s.points[0], t.direction, s.direction.Opposite(), w, h);
    }
  }

  // ---------------------------------------------------------------- length

  /** A surviving snake's cells and pending growth together increase by what it eats. */
  lemma {:induction false} LengthAfterTick(settings: GameSettings, l: LevelState, moves: Moves, i: nat)
    requires l.Ready() && i < |l.snakes| && l.TurnPhase(moves).Fates()[i] != Dead
    requires l.snakes[i].pendingGrowth + l.number.value * settings.growthFactor < WORD
    ensures
      var s, t := l.snakes[i], Ticked(settings, l, moves);
      && i < |t.snakes| && t.snakes[i].points != [] && t.snakes[i].player == s.player
      && |t.snakes[i].points| + t.snakes[i].pendingGrowth
      == |s.points| + s.pendingGrowth
         + if s.player in Eaters(l, moves) then l.number.value * settings.growthFactor else 0
  {
    hide Ticked, LevelState.TurnPhase, LevelState.Fates, SnakeState.NextHead, Meeting;
    SnakeAfterTick(settings, l, moves, i);
    RedirectedSnake(l.snakes[i], moves);
    TurnKeepsReady(l, moves);
    MeetsItsFate(NumberEaten, l.TurnPhase(moves).snakes, l.TurnPhase(moves).Fates(), i);
  }

  // ---------------------------------------------------------------- the number

  /** The board shows the number nowhere but on its block. */
  ghost predicate NumberWithin(l: LevelState) {
    forall p :: p in l.grid && l.grid[p] == NumberCell ==> l.number.position.Has(p)
  }

  /** The board shows the whole number, off the start cells, and nothing else of its kind. */
  ghost predicate NumberShown(l: LevelState) {
    && NumberWithin(l)
    && (forall p :: p in l.grid && l.number.position.Has(p) && !IsStart(l, p) ==> l.grid[p] == NumberCell)
  }

  lemma {:induction false} TickKeepsNumberWithin(settings: GameSettings, l: LevelState, moves: Moves)
    requires l.Ready() && NumberWithin(l)
    ensures NumberWithin(Ticked(settings, l, moves))
  {
    TurnKeepsReady(l, moves);
    HeadsKeepReady(settings, l.TurnPhase(moves));
  }

  /** A tick in which nobody eats keeps the whole number on the board. */
  lemma {:induction false} TickKeepsNumberShown(settings: GameSettings, l: LevelState, moves: Moves)
    requires l.Ready() && Agreement(l) && NumberShown(l)
    requires Eaters(l, moves) == {}
    ensures NumberShown(Ticked(settings, l, moves))
  {
    var a := l.TurnPhase(moves);
    TurnKeepsReady(l, moves);
    TurnKeepsAgreement(l, moves);
    var b := AfterHeads(settings, a);
    HeadsKeepReady(settings, a);
    HeadsKeepAgreement(settings, a);
    var t := b.TailPhase();
    TickKeepsNumberWithin(settings, l, moves);
    hide Agreement, AfterHeads, NumberWithin, LevelState.Fates, LevelState.Heads;
    forall p | p in t.grid && t.number.position.Has(p) && !IsStart(t, p)
      ensures t.grid[p] == NumberCell
    {
      assert !IsStart(l, p) && !IsStart(b, p);
      HeadsLeaveNumber(settings, l, moves, p);
      TailsLeaveNumber(b, p);
    }
  }

  lemma {:induction false} HeadsLeaveNumber(settings: GameSettings, l: LevelState, moves: Moves, p: Point)
    requires l.Ready() && Eaters(l, moves) == {} && p in l.grid && l.grid[p] == NumberCell
    ensures AfterHeads(settings, l.TurnPhase(moves)).grid[p] == NumberCell
  {
    var a := l.TurnPhase(moves);
    if p in Claimed(a.Heads(), a.Fates()) {
      var i :| 0 <= i < |a.snakes| && a.Fates()[i] != Dead && a.Heads()[i] == p;
      EnteredCell(a, i);
      MeetsItsFate(NumberEaten, a.snakes, a.Fates(), i);
    }
  }

  lemma {:induction false} TailsLeaveNumber(l: LevelState, p: Point)
    requires l.Ready() && Agreement(l) && !IsStart(l, p) && p in l.grid && l.grid[p] == NumberCell
    ensures l.TailPhase().grid[p] == NumberCell
  {
    if p in Vacated(l.snakes) {
      var j :| 0 <= j < |l.snakes| && l.snakes[j].pendingGrowth == 0
        && l.snakes[j].points[|l.snakes[j].points| - 1] == p;
      assert Lies(l.snakes, j, |l.snakes[j].points| - 1, p);
    }
  }

  /** Whatever is left of the old number, the new one is shown whole. */
  lemma {:induction false} NewNumberShown(l: LevelState, n: Number)
    requires NumberWithin(l)
    ensures NumberShown(l.WithNumber(n))
  {
  }
}
