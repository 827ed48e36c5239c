/** One level as a value, and a tick of it in which all snakes move at the same time.

    Level::tick moves the snakes one after the other on a board they share. Here a tick is three
    simultaneous phases - turning, heads, tails - in which what happens to a snake is a function
    of the snake, the board before the phase and the bag of cells that all heads are about to
    enter. Class Level refines this model. */
module LevelModel {
  import opened Geometry
  import opened Blocks
  import opened Definitions
  import opened Boards
  import opened Scores
  import opened Snakes

  type Moves = map<PlayerId, Direction>

  /** Eating the number of this value completes a level. */
  const LAST_NUMBER: nat := 9

  datatype LevelState = LevelState(def: LevelDefinition, snakes: seq<SnakeState>, number: Number, grid: Grid)
  {
    /** The board is laid out and every snake lies on it, though it may have no cell left. */
    ghost predicate LaidOut() {
      && grid.Keys == Region(def.w, def.h)
      && (forall i :: 0 <= i < |snakes| ==> snakes[i].Within(def.w, def.h))
      && (forall i, j :: 0 <= i < j < |snakes| ==> snakes[i].player != snakes[j].player)
    }

    /** A level that can be ticked: every snake has a head. */
    ghost predicate Ready() {
      && LaidOut()
      && (forall i :: 0 <= i < |snakes| ==> snakes[i].points != [])
    }

    /** The cells the heads of all snakes are about to enter. */
    ghost function Heads(): (heads: seq<Point>)
      requires Ready()
      ensures |heads| == |snakes|
      ensures forall i :: 0 <= i < |heads| ==> heads[i] == snakes[i].NextHead(def.w, def.h)
      ensures forall i :: 0 <= i < |heads| ==> heads[i] in grid
    {
      seq(|snakes|, i requires 0 <= i < |snakes| => snakes[i].NextHead(def.w, def.h))
    }

    /** What happens to each of the snakes. */
    ghost function Fates(): (fates: seq<TickResult>)
      requires Ready()
      ensures |fates| == |snakes|
      ensures forall i :: 0 <= i < |fates| ==> fates[i] == Fate(Heads()[i], grid, multiset(Heads()))
    {
      seq(|snakes|, i requires 0 <= i < |snakes| => Fate(Heads()[i], grid, multiset(Heads())))
    }

    // -------------------------------------------------------------- the three phases

    function TurnPhase(moves: Moves): (l: LevelState)
      ensures l == this.(snakes := l.snakes) && |l.snakes| == |snakes|
      ensures forall i :: 0 <= i < |snakes| ==> l.snakes[i] == Redirected(snakes[i], moves)
    {
      this.(snakes := seq(|snakes|, i requires 0 <= i < |snakes| => Redirected(snakes[i], moves)))
    }

    function HeadPhase(settings: GameSettings, heads: seq<Point>, fates: seq<TickResult>): (l: LevelState)
      requires |heads| == |fates| == |snakes|
      ensures l == this.(snakes := l.snakes, grid := l.grid) && |l.snakes| == |snakes|
      ensures forall i :: 0 <= i < |snakes| ==>
        l.snakes[i] == Advanced(snakes[i], heads[i], fates[i], number.value * settings.growthFactor)
      ensures l.grid == Paint(grid, Claimed(heads, fates), SnakeCell)
    {
      this.(
        snakes := seq(|snakes|, i requires 0 <= i < |snakes| =>
          Advanced(snakes[i], heads[i], fates[i], number.value * settings.growthFactor)),
        grid := Paint(grid, Claimed(heads, fates), SnakeCell))
    }

    function TailPhase(): (l: LevelState)
      requires forall i :: 0 <= i < |snakes| ==> snakes[i].points != []
      ensures l == this.(snakes := l.snakes, grid := l.grid) && |l.snakes| == |snakes|
      ensures forall i :: 0 <= i < |snakes| ==> l.snakes[i] == snakes[i].Retracted()
      ensures l.grid == Paint(grid, Vacated(snakes), EmptyCell)
    {
      this.(snakes := seq(|snakes|, i requires 0 <= i < |snakes| => snakes[i].Retracted()),
            grid := Paint(grid, Vacated(snakes), EmptyCell))
    }

    /** The scorer knows all players and none of them has run out of lives. */
    ghost predicate Scorable(sb: ScoreBoard) {
      && sb.scores.Keys == sb.lives.Keys
      && (forall i :: 0 <= i < |snakes| ==> snakes[i].player in sb.scores && sb.lives[snakes[i].player] > 0)
    }

    // -------------------------------------------------------------- numbers

    /** Clear what is left of the old number and lay out the new one. */
    function WithNumber(newNumber: Number): LevelState {
      this.(number := newNumber,
            grid := Paint(Cleared(grid, number.position), newNumber.position.Cells(), NumberCell))
    }

    predicate Free(corner: Point) {
      FreeBlock(grid, def.w, def.h, corner)
    }

    /** The draws stay in range and at least one of them is free. */
    predicate Placeable(draws: seq<Point>) {
      && (forall p :: p in draws ==> p.x + NUMBER_WIDTH <= def.w && p.y + NUMBER_HEIGHT <= def.h)
      && (exists p :: p in draws && Free(p))
    }

    /** The number the server places: on the first drawn block that is free. */
    function Drawn(draws: seq<Point>, value: nat): (n: Number)
      requires exists p :: p in draws && Free(p)
      ensures exists p :: p in draws && Free(p) && n == Number(NumberBlock(p), value)
    {
      Number(NumberBlock(FirstFree(grid, def.w, def.h, draws)), value)
    }

    /** The block of the current number has no cells or lies on the board. */
    predicate NumberFits() {
      && number.position.Walkable()
      && (number.position.min.x < number.position.max.x ==>
            number.position.max.x <= def.w && number.position.max.y <= def.h)
    }
  }

  /** A number block with this corner fits on the board and all its cells are empty. */
  predicate FreeBlock(g: Grid, w: nat, h: nat, corner: Point) {
    && corner.x + NUMBER_WIDTH <= w && corner.y + NUMBER_HEIGHT <= h
    && forall p :: p in NumberBlock(corner).Cells() ==> p in g && g[p] == EmptyCell
  }

  ghost predicate SomeFree(g: Grid, w: nat, h: nat, draws: seq<Point>) {
    exists p :: p in draws && FreeBlock(g, w, h, p)
  }

  function FirstFree(g: Grid, w: nat, h: nat, draws: seq<Point>): (corner: Point)
    requires SomeFree(g, w, h, draws)
    ensures corner in draws && FreeBlock(g, w, h, corner)
  {
    if FreeBlock(g, w, h, draws[0]) then draws[0] else FirstFree(g, w, h, draws[1..])
  }

  lemma {:induction false} FirstFreeFrom(g: Grid, w: nat, h: nat, draws: seq<Point>, k: nat)
    requires k <= |draws| && SomeFree(g, w, h, draws[k..])
    ensures k < |draws|
    ensures FreeBlock(g, w, h, draws[k]) ==> FirstFree(g, w, h, draws[k..]) == draws[k]
    ensures !FreeBlock(g, w, h, draws[k]) ==>
      SomeFree(g, w, h, draws[k + 1..]) && FirstFree(g, w, h, draws[k..]) == FirstFree(g, w, h, draws[k + 1..])
  {
    assert draws[k..][1..] == draws[k + 1..];
    if k < |draws| && !FreeBlock(g, w, h, draws[k]) {
      hide FreeBlock;
      var p :| p in draws[k..] && FreeBlock(g, w, h, p);
      assert p in draws[k + 1..];
    }
  }

  function Redirected(s: SnakeState, moves: Moves): (r: SnakeState)
    ensures r.points == s.points
  {
    if s.player in moves then s.Turned(moves[s.player]) else s
  }

  /** A surviving snake gets a new head; one that eats will also grow in length. */
  function Advanced(s: SnakeState, next: Point, fate: TickResult, growth: nat): SnakeState {
    match fate
    case Dead => s
    case NumberEaten => s.(points := [next] + s.points, pendingGrowth := Wrap(s.pendingGrowth + growth))
    case _ => s.(points := [next] + s.points)
  }

  /** The cells entered by the snakes that survive. */
  function Claimed(heads: seq<Point>, fates: seq<TickResult>): set<Point>
    requires |heads| == |fates|
  {
    set i | 0 <= i < |heads| && fates[i] != Dead :: heads[i]
  }

  /** The cells given up by the given snakes as they draw in their tails. */
  function Vacated(snakes: seq<SnakeState>): set<Point>
    requires forall i :: 0 <= i < |snakes| ==> snakes[i].points != []
  {
    set i | 0 <= i < |snakes| && snakes[i].pendingGrowth == 0 :: snakes[i].points[|snakes[i].points| - 1]
  }

  /** The players whose snakes meet the given fate. */
  function Meeting(fate: TickResult, snakes: seq<SnakeState>, fates: seq<TickResult>): set<PlayerId>
    requires |snakes| == |fates|
  {
    set i | 0 <= i < |snakes| && fates[i] == fate :: snakes[i].player
  }

  /** The scores and lives after the eaters have scored the value of the number and the casualties
      have been charged for a death. */
  function Settled(settings: GameSettings, value: nat, sb: ScoreBoard, eaters: set<PlayerId>,
                   casualties: set<PlayerId>): (r: ScoreBoard)
    ensures r.scores.Keys == sb.scores.Keys && r.lives.Keys == sb.lives.Keys
  {
    ScoreBoard(
      map id | id in sb.scores ::
        sb.scores[id]
        + (if id in eaters then value else 0)
        + (if id in casualties then settings.deathScore else 0),
      map id | id in sb.lives :: sb.lives[id] - if id in casualties then 1 else 0)
  }

  /** A death beats a meal, and the death that takes a player's last life beats any other. */
  ghost function Outcome(sb: ScoreBoard, eaters: set<PlayerId>, casualties: set<PlayerId>): TickResult {
    if exists id :: id in casualties && id in sb.lives && sb.lives[id] == 1 then GameOver
    else if casualties != {} then Dead
    else if eaters != {} then NumberEaten
    else NoResult
  }

  /** The board with the remains of the number on a block cleared from all cells before a point. */
  function ClearedUpTo(g: Grid, block: Block, end: Point): (r: Grid)
    ensures r.Keys == g.Keys
  {
    map p | p in g :: if block.Has(p) && Before(p, end) && g[p] == NumberCell then EmptyCell else g[p]
  }

  lemma {:induction false} ClearingOneMore(g: Grid, block: Block, p: Point)
    requires block.Walkable() && block.Has(p) && p in g
    ensures ClearedUpTo(g, block, p)[p] == g[p]
    ensures ClearedUpTo(g, block, Next(block, p))
         == if g[p] == NumberCell then ClearedUpTo(g, block, p)[p := EmptyCell] else ClearedUpTo(g, block, p)
  {
  }

  lemma {:induction false} ClearingAll(g: Grid, block: Block)
    requires block.Walkable()
    ensures ClearedUpTo(g, block, block.Begin()) == g
    ensures ClearedUpTo(g, block, block.End()) == Cleared(g, block)
  {
  }

  function Cleared(g: Grid, block: Block): (r: Grid)
    ensures r.Keys == g.Keys
  {
    map p | p in g :: if block.Has(p) && g[p] == NumberCell then EmptyCell else g[p]
  }

  /** A level before its first number: the players' snakes on their starts and the bare board. */
  ghost function StartOfLevel(settings: GameSettings, def: LevelDefinition, players: seq<PlayerId>): (l: LevelState)
    requires settings.startLength < WORD && |players| <= |def.starts|
    ensures |l.snakes| == |players|
    ensures forall i :: 0 <= i < |players| ==>
      l.snakes[i] == NewSnake(players[i], def.starts[i], settings.startLength)
  {
    LevelState(
      def,
      seq(|players|, i requires 0 <= i < |players| => NewSnake(players[i], def.starts[i], settings.startLength)),
      NO_NUMBER,
      InitialGrid(def))
  }

  lemma {:induction false} BareLevelFits(settings: GameSettings, def: LevelDefinition, players: seq<PlayerId>)
    requires settings.startLength < WORD && |players| <= |def.starts|
    ensures StartOfLevel(settings, def, players).NumberFits()
    ensures StartOfLevel(settings, def, players).def == def
  {
  }

  /** A level with its first number. */
  ghost function FirstOfLevel(settings: GameSettings, def: LevelDefinition, players: seq<PlayerId>,
                              draws: seq<Point>): (l: LevelState)
    requires settings.startLength < WORD && |players| <= |def.starts|
    requires StartOfLevel(settings, def, players).Placeable(draws)
    ensures l.def == def
  {
    var start := StartOfLevel(settings, def, players);
    start.WithNumber(start.Drawn(draws, 1))
  }

  // ---------------------------------------------------------------- a whole tick

  /** The level once all heads have moved. */
  ghost function AfterHeads(settings: GameSettings, l: LevelState): (t: LevelState)
    requires l.Ready()
    ensures t == l.(snakes := t.snakes, grid := t.grid) && |t.snakes| == |l.snakes|
  {
    l.HeadPhase(settings, l.Heads(), l.Fates())
  }

  /** The level, the scores and the result after a tick, without the choice of a new number: what a
      client runs. */
  ghost function Ticked(settings: GameSettings, l: LevelState, moves: Moves): LevelState
    requires l.Ready()
  {
    var turned := l.TurnPhase(moves);
    HeadsKeepReady(settings, turned);
    AfterHeads(settings, turned).TailPhase()
  }

  ghost function Eaters(l: LevelState, moves: Moves): set<PlayerId>
    requires l.Ready()
  {
    Meeting(NumberEaten, l.TurnPhase(moves).snakes, l.TurnPhase(moves).Fates())
  }

  ghost function Casualties(l: LevelState, moves: Moves): set<PlayerId>
    requires l.Ready()
  {
    Meeting(Dead, l.TurnPhase(moves).snakes, l.TurnPhase(moves).Fates())
  }

  ghost function TickedScores(settings: GameSettings, l: LevelState, moves: Moves, sb: ScoreBoard): ScoreBoard
    requires l.Ready()
  {
    Settled(settings, l.number.value, sb, Eaters(l, moves), Casualties(l, moves))
  }

  ghost function TickedResult(l: LevelState, moves: Moves, sb: ScoreBoard): TickResult
    requires l.Ready()
  {
    Outcome(sb, Eaters(l, moves), Casualties(l, moves))
  }

  /** The tick asks for a new number: one was eaten, nobody died, and it was not the last. */
  ghost predicate AsksForNumber(l: LevelState, moves: Moves, sb: ScoreBoard)
    requires l.Ready()
  {
    TickedResult(l, moves, sb) == NumberEaten && l.number.value != LAST_NUMBER
  }

  /** The level after a tick of the server, which places the next number on a cell it draws. */
  ghost function Progressed(settings: GameSettings, l: LevelState, moves: Moves, sb: ScoreBoard,
                            draws: seq<Point>): LevelState
    requires l.Ready()
    requires AsksForNumber(l, moves, sb) ==> Ticked(settings, l, moves).Placeable(draws)
  {
    var ticked := Ticked(settings, l, moves);
    if AsksForNumber(l, moves, sb) then ticked.WithNumber(ticked.Drawn(draws, l.number.value + 1)) else ticked
  }

  ghost function ProgressedResult(l: LevelState, moves: Moves, sb: ScoreBoard): TickResult
    requires l.Ready()
  {
    var result := TickedResult(l, moves, sb);
    if result == NumberEaten && l.number.value == LAST_NUMBER then AdvanceLevel else result
  }

  lemma {:induction false} TickedKeepsDefinition(settings: GameSettings, l: LevelState, moves: Moves)
    requires l.Ready()
    ensures Ticked(settings, l, moves).def == l.def && Ticked(settings, l, moves).number == l.number
  {
  }

  lemma {:induction false} RedirectedSnake(s: SnakeState, moves: Moves)
    ensures Redirected(s, moves) == if s.player in moves then s.Turned(moves[s.player]) else s
    ensures Redirected(s, moves).points == s.points
  {
  }

  lemma {:induction false} TurnKeepsReady(l: LevelState, moves: Moves)
    requires l.Ready()
    ensures l.TurnPhase(moves).Ready()
    ensures forall sb :: l.Scorable(sb) ==> l.TurnPhase(moves).Scorable(sb)
  {
  }

  lemma {:induction false} HeadsKeepReady(settings: GameSettings, l: LevelState)
    requires l.Ready()
    ensures AfterHeads(settings, l).Ready()
  {
    hide Paint, Claimed, Fate, Adjacent;
  }

  /** A player is listed under a fate exactly when it is the fate of the player's snake. */
  lemma {:induction false} MeetsItsFate(fate: TickResult, snakes: seq<SnakeState>, fates: seq<TickResult>, i: nat)
    requires i < |snakes| == |fates|
    requires forall j, k :: 0 <= j < k < |snakes| ==> snakes[j].player != snakes[k].player
    ensures fates[i] == fate <==> snakes[i].player in Meeting(fate, snakes, fates)
  {
  }

  // ---------------------------------------------------------------- one snake after the other

  /** If two snakes are about to enter the same cell, the bag of heads holds it at least twice. */
  lemma {:induction false} SharedHead(heads: seq<Point>, i: nat, j: nat)
    requires i < j < |heads| && heads[i] == heads[j]
    ensures multiset(heads)[heads[i]] > 1
  {
    assert heads == heads[..j] + [heads[j]] + heads[j + 1..];
    assert heads[i] in heads[..j];
  }

  /** The fate of a snake does not depend on which other snakes have already moved their heads. */
  lemma {:induction false} FateWhateverTheOrder(grid: Grid, heads: seq<Point>, fates: seq<TickResult>, i: nat)
    requires i < |heads| == |fates| && heads[i] in grid
    ensures Fate(heads[i], grid, multiset(heads))
         == Fate(heads[i], Paint(grid, Claimed(heads[..i], fates[..i]), SnakeCell), multiset(heads))
  {
    if heads[i] in Claimed(heads[..i], fates[..i]) {
      var k :| 0 <= k < i && heads[k] == heads[i];
      SharedHead(heads, k, i);
    }
  }

  lemma {:induction false} OneMoreClaimed(heads: seq<Point>, fates: seq<TickResult>, i: nat)
    requires i < |heads| == |fates|
    ensures Claimed(heads[..i + 1], fates[..i + 1])
         == Claimed(heads[..i], fates[..i]) + if fates[i] != Dead then {heads[i]} else {}
  {
    var a, b := Claimed(heads[..i + 1], fates[..i + 1]), Claimed(heads[..i], fates[..i]);
    forall p | p in b
      ensures p in a
    {
      var k :| 0 <= k < i && fates[..i][k] != Dead && heads[..i][k] == p;
      assert heads[..i + 1][k] == p && fates[..i + 1][k] != Dead;
    }
    if fates[i] != Dead {
      assert heads[..i + 1][i] == heads[i] && fates[..i + 1][i] != Dead;
    }
  }

  lemma {:induction false} OneMoreMeeting(fate: TickResult, snakes: seq<SnakeState>, fates: seq<TickResult>, i: nat)
    requires i < |snakes| == |fates|
    requires forall j, k :: 0 <= j < k < |snakes| ==> snakes[j].player != snakes[k].player
    ensures Meeting(fate, snakes[..i + 1], fates[..i + 1])
         == Meeting(fate, snakes[..i], fates[..i]) + if fates[i] == fate then {snakes[i].player} else {}
    ensures snakes[i].player !in Meeting(fate, snakes[..i], fates[..i])
  {
    var a, b := Meeting(fate, snakes[..i + 1], fates[..i + 1]), Meeting(fate, snakes[..i], fates[..i]);
    forall id | id in b
      ensures id in a
    {
      var k :| 0 <= k < i && fates[..i][k] == fate && snakes[..i][k].player == id;
      assert snakes[..i + 1][k].player == id && fates[..i + 1][k] == fate;
    }
    if fates[i] == fate {
      assert snakes[..i + 1][i].player == snakes[i].player && fates[..i + 1][i] == fate;
    }
  }

  lemma {:induction false} OneMoreVacated(snakes: seq<SnakeState>, i: nat)
    requires i < |snakes| && forall j :: 0 <= j < |snakes| ==> snakes[j].points != []
    ensures Vacated(snakes[..i + 1])
         == Vacated(snakes[..i])
            + if snakes[i].pendingGrowth == 0 then {snakes[i].points[|snakes[i].points| - 1]} else {}
  {
    var a, b := Vacated(snakes[..i + 1]), Vacated(snakes[..i]);
    forall p | p in b
      ensures p in a
    {
      var k :| 0 <= k < i && snakes[..i][k].pendingGrowth == 0
               && snakes[..i][k].points[|snakes[..i][k].points| - 1] == p;
      assert snakes[..i + 1][k] == snakes[..i][k];
    }
    assert snakes[..i + 1][i] == snakes[i];
  }

  lemma {:induction false} TailGridOneMore(l: LevelState, i: nat)
    requires l.Ready() && i < |l.snakes|
    ensures
      var s := l.snakes[i];
      var before := Paint(l.grid, Vacated(l.snakes[..i]), EmptyCell);
      Paint(l.grid, Vacated(l.snakes[..i + 1]), EmptyCell)
      == if s.pendingGrowth > 0 then before else before[s.points[|s.points| - 1] := EmptyCell]
  {
    OneMoreVacated(l.snakes, i);
  }

  /** The board once the first n snakes have moved their heads. */
  function GridAfter(l: LevelState, heads: seq<Point>, fates: seq<TickResult>, n: nat): Grid
    requires n <= |heads| == |fates|
  {
    Paint(l.grid, Claimed(heads[..n], fates[..n]), SnakeCell)
  }

  /** The scores once the fates of the first n snakes have been settled. */
  function ScoresAfter(settings: GameSettings, l: LevelState, fates: seq<TickResult>, sb: ScoreBoard,
                       n: nat): ScoreBoard
    requires n <= |l.snakes| == |fates|
  {
    Settled(settings, l.number.value, sb,
            Meeting(NumberEaten, l.snakes[..n], fates[..n]), Meeting(Dead, l.snakes[..n], fates[..n]))
  }

  ghost function OutcomeAfter(l: LevelState, fates: seq<TickResult>, sb: ScoreBoard, n: nat): TickResult
    requires n <= |l.snakes| == |fates|
  {
    Outcome(sb, Meeting(NumberEaten, l.snakes[..n], fates[..n]), Meeting(Dead, l.snakes[..n], fates[..n]))
  }

  /** Settling the fate of a single player. */
  function SettledOne(settings: GameSettings, value: nat, sb: ScoreBoard, id: PlayerId, fate: TickResult): ScoreBoard
    requires id in sb.scores && id in sb.lives
  {
    match fate
    case NumberEaten => sb.(scores := sb.scores[id := sb.scores[id] + value])
    case Dead => ScoreBoard(sb.scores[id := sb.scores[id] + settings.deathScore], sb.lives[id := sb.lives[id] - 1])
    case _ => sb
  }

  function ResultOf(fate: TickResult, lives: int): TickResult {
    if fate == Dead && lives == 1 then GameOver else fate
  }

  lemma {:induction false} GridAfterOneMore(l: LevelState, i: nat)
    requires l.Ready() && i < |l.snakes|
    ensures
      var heads, fates := l.Heads(), l.Fates();
      var before := GridAfter(l, heads, fates, i);
      && heads[i] in before
      && fates[i] == Fate(heads[i], before, multiset(heads))
      && GridAfter(l, heads, fates, i + 1) == if fates[i] == Dead then before else before[heads[i] := SnakeCell]
  {
    FateWhateverTheOrder(l.grid, l.Heads(), l.Fates(), i);
    OneMoreClaimed(l.Heads(), l.Fates(), i);
  }

  lemma {:induction false} ScoresAfterOneMore(settings: GameSettings, l: LevelState, fates: seq<TickResult>,
                                              sb: ScoreBoard, i: nat)
    requires l.Ready() && l.Scorable(sb) && i < |l.snakes| == |fates|
    ensures
      var id := l.snakes[i].player;
      var before := ScoresAfter(settings, l, fates, sb, i);
      && id in before.scores && id in before.lives && before.lives[id] == sb.lives[id] > 0
      && ScoresAfter(settings, l, fates, sb, i + 1) == SettledOne(settings, l.number.value, before, id, fates[i])
  {
    hide Meeting;
    OneMoreMeeting(NumberEaten, l.snakes, fates, i);
    OneMoreMeeting(Dead, l.snakes, fates, i);
    var eaters := Meeting(NumberEaten, l.snakes[..i], fates[..i]);
    var casualties := Meeting(Dead, l.snakes[..i], fates[..i]);
    SettledOneMore(settings, l.number.value, sb, eaters, casualties, l.snakes[i].player, fates[i]);
  }

  lemma {:induction false} SettledOneMore(settings: GameSettings, value: nat, sb: ScoreBoard, eaters: set<PlayerId>,
                                          casualties: set<PlayerId>, id: PlayerId, fate: TickResult)
    requires id in sb.scores && id in sb.lives && id !in eaters && id !in casualties
    ensures
      var before := Settled(settings, value, sb, eaters, casualties);
      && before.lives[id] == sb.lives[id]
      && SettledOne(settings, value, before, id, fate)
      == Settled(settings, value, sb, eaters + (if fate == NumberEaten then {id} else {}),
                 casualties + (if fate == Dead then {id} else {}))
  {
  }

  lemma {:induction false} OutcomeAfterOneMore(l: LevelState, sb: ScoreBoard, i: nat)
    requires l.Ready() && l.Scorable(sb) && i < |l.snakes|
    ensures OutcomeAfter(l, l.Fates(), sb, i + 1)
         == OutcomeAfter(l, l.Fates(), sb, i).Max(ResultOf(l.Fates()[i], sb.lives[l.snakes[i].player]))
  {
    hide Meeting;
    var fates := l.Fates();
    OneMoreMeeting(NumberEaten, l.snakes, fates, i);
    OneMoreMeeting(Dead, l.snakes, fates, i);
    assert fates[i] in {NoResult, NumberEaten, Dead};
  }

  lemma {:induction false} NothingBeforeTheFirst(settings: GameSettings, l: LevelState, sb: ScoreBoard)
    requires l.Ready() && l.Scorable(sb)
    ensures GridAfter(l, l.Heads(), l.Fates(), 0) == l.grid
    ensures ScoresAfter(settings, l, l.Fates(), sb, 0) == sb
    ensures OutcomeAfter(l, l.Fates(), sb, 0) == NoResult
  {
  }

  lemma {:induction false} EverythingAfterTheLast(settings: GameSettings, l: LevelState, sb: ScoreBoard)
    requires l.Ready()
    ensures
      var n, fates := |l.snakes|, l.Fates();
      var eaters, casualties := Meeting(NumberEaten, l.snakes, fates), Meeting(Dead, l.snakes, fates);
      && GridAfter(l, l.Heads(), fates, n) == AfterHeads(settings, l).grid
      && ScoresAfter(settings, l, fates, sb, n) == Settled(settings, l.number.value, sb, eaters, casualties)
      && OutcomeAfter(l, fates, sb, n) == Outcome(sb, eaters, casualties)
  {
    var n := |l.snakes|;
    assert l.snakes[..n] == l.snakes && l.Fates()[..n] == l.Fates() && l.Heads()[..n] == l.Heads();
  }

}
