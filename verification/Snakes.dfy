/** Snakes: how one snake turns, moves its head and draws in its tail. */
module Snakes {
  import opened Geometry
  import opened Definitions
  import opened Boards

  /** The result of a tick for a snake or for a whole level, in increasing order of precedence. */
  datatype TickResult = NoResult | NumberEaten | AdvanceLevel | Dead | GameOver {
    function Rank(): nat {
      match this
      case NoResult => 0
      case NumberEaten => 1
      case AdvanceLevel => 2
      case Dead => 3
      case GameOver => 4
    }

    function Max(other: TickResult): TickResult {
      if Rank() < other.Rank() then other else this
    }
  }

  /** A snake as a value; points[0] is its head. */
  datatype SnakeState = SnakeState(player: PlayerId, points: seq<Point>, direction: Direction, pendingGrowth: nat)
  {
    predicate Within(w: nat, h: nat) {
      forall k :: 0 <= k < |points| ==> OnBoard(points[k], w, h)
    }

    /** A snake takes a new direction unless it already moves along that axis. */
    function Turned(d: Direction): SnakeState {
      if direction.SameAxis(d) then this else this.(direction := d)
    }

    function NextHead(w: nat, h: nat): (p: Point)
      requires points != [] && OnBoard(points[0], w, h)
      ensures OnBoard(p, w, h)
    {
      Adjacent(points[0], direction, w, h)
    }

    /** Drawing in the tail uses up one unit of pending growth or gives up the last cell. */
    function Retracted(): SnakeState
      requires points != []
    {
      if pendingGrowth > 0 then this.(pendingGrowth := pendingGrowth - 1)
      else this.(points := points[..|points| - 1])
    }
  }

  /** A snake at the start of a level. */
  function NewSnake(id: PlayerId, start: Position, startLength: nat): (s: SnakeState)
    requires startLength < WORD
    ensures s.pendingGrowth + |s.points| == if startLength == 0 then 1 else startLength
  {
    var pending := Wrap(startLength - 1);
    SnakeState(id, [start.point], start.direction, if startLength == 0 then Wrap(pending + 1) else pending)
  }

  /** What happens to a snake that is about to enter cell next, when all snakes are about to enter heads. */
  function Fate(next: Point, grid: Grid, heads: multiset<Point>): TickResult
    requires next in grid
  {
    if heads[next] > 1 then Dead
    else match grid[next]
      case WallCell => Dead
      case SnakeCell => Dead
      case NumberCell => NumberEaten
      case EmptyCell => NoResult
  }

  class Snake {
    var player: PlayerId
    var points: seq<Point>
    var direction: Direction
    var pendingGrowth: nat

    constructor (id: PlayerId, start: Position, startLength: nat)
      requires startLength < WORD
      ensures State() == NewSnake(id, start, startLength)
    {
      player, points, direction, pendingGrowth := id, [start.point], start.direction, Wrap(startLength - 1);
      new;
      if startLength == 0 {
        pendingGrowth := Wrap(pendingGrowth + 1);
      }
    }

    function State(): SnakeState
      reads this
    {
      SnakeState(player, points, direction, pendingGrowth)
    }

    method Turn(newDir: Direction)
      modifies this`direction
      ensures State() == old(State()).Turned(newDir)
    {
      if newDir == direction || newDir == direction.Opposite() {
        return;
      }
      direction := newDir;
    }

    method AdvanceHead(board: Board, nextHeads: seq<Point>) returns (result: TickResult)
      requires points != [] && OnBoard(points[0], board.states.Length0, board.states.Length1)
      modifies this`points, board.states
      ensures
        var next := old(State().NextHead(board.states.Length0, board.states.Length1));
        && result == Fate(next, old(board.Grid()), multiset(nextHeads))
        && points == (if result == Dead then old(points) else [next] + old(points))
        && board.Grid() == (if result == Dead then old(board.Grid()) else old(board.Grid())[next := SnakeCell])
      ensures
        var next := old(State().NextHead(board.states.Length0, board.states.Length1));
        var entering, cell := multiset(nextHeads)[next], old(board.Grid())[next];
        && (result == Dead <==> entering > 1 || cell == WallCell || cell == SnakeCell)
        && (result == NumberEaten <==> entering <= 1 && cell == NumberCell)
        && (result == NoResult <==> entering <= 1 && cell == EmptyCell)
    {
      var next := Adjacent(points[0], direction, board.states.Length0, board.states.Length1);
      var numNextHeads := multiset(nextHeads)[next];
      if numNextHeads > 1 {
        return Dead;
      }
      match board.At(next)
      case WallCell =>
        return Dead;
      case SnakeCell =>
        return Dead;
      case NumberCell =>
        points := [next] + points;
        board.Set(next, SnakeCell);
        return NumberEaten;
      case EmptyCell =>
        points := [next] + points;
        board.Set(next, SnakeCell);
        return NoResult;
    }

    method AdvanceTail(board: Board)
      requires points != []
      requires OnBoard(points[|points| - 1], board.states.Length0, board.states.Length1)
      modifies this`points, this`pendingGrowth, board.states
      ensures State() == old(State()).Retracted()
      ensures board.Grid() == if old(pendingGrowth) > 0 then old(board.Grid())
                              else old(board.Grid())[old(points[|points| - 1]) := EmptyCell]
    {
      if pendingGrowth != 0 {
        pendingGrowth := pendingGrowth - 1;
      } else {
        board.Set(points[|points| - 1], EmptyCell);
        points := points[..|points| - 1];
      }
    }
  }
}
