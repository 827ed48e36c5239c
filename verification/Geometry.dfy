/** Points, directions and the torus step on which a level is played. */
module Geometry {

  // Every coordinate, length and level number of the program is a uint32_t.
  const WORD := 0x1_0000_0000

  /** The value a uint32_t holds after an arithmetic operation whose exact result is z. */
  function Wrap(z: int): (u: nat)
    ensures u < WORD
    ensures 0 <= z < WORD ==> u == z
    ensures -WORD <= z < 0 ==> u == z + WORD
  {
    z % WORD
  }

  datatype Option<+T> = None | Some(value: T)

  datatype Point = Point(x: nat, y: nat)

  datatype Direction = Up | Down | Left | Right {
    function Code(): nat {
      match this
      case Up => 0
      case Down => 1
      case Left => 2
      case Right => 3
    }

    /** Flipping the lowest bit of the code turns a direction round. */
    function Opposite(): Direction {
      if Code() % 2 == 0 then FromCode(Code() + 1) else FromCode(Code() - 1)
    }

    predicate SameAxis(other: Direction) {
      this == other || this == other.Opposite()
    }
  }

  function FromCode(code: nat): Direction
    requires code < 4
  {
    [Up, Down, Left, Right][code]
  }

  datatype Position = Position(point: Point, direction: Direction)

  predicate OnBoard(p: Point, w: nat, h: nat) {
    p.x < w && p.y < h
  }

  /** The cells of a w by h board. */
  function Region(w: nat, h: nat): (r: set<Point>)
    ensures forall p: Point :: p in r <==> OnBoard(p, w, h)
  {
    set x, y | 0 <= x < w && 0 <= y < h :: Point(x, y)
  }

  /** The neighbour of p in direction d; leaving the board on one side re-enters it on the other. */
  function Adjacent(p: Point, d: Direction, w: nat, h: nat): (q: Point)
    requires OnBoard(p, w, h)
    ensures OnBoard(q, w, h)
  {
    match d
    case Up => Point(p.x, if p.y == 0 then h - 1 else p.y - 1)
    case Down => Point(p.x, if p.y == h - 1 then 0 else p.y + 1)
    case Left => Point(if p.x == 0 then w - 1 else p.x - 1, p.y)
    case Right => Point(if p.x == w - 1 then 0 else p.x + 1, p.y)
  }

  predicate Vertical(d: Direction) {
    d == Up || d == Down
  }

  /** Two directions share an axis if both are vertical or both are horizontal. */
  lemma {:induction false} AxisOf(d: Direction, e: Direction)
    ensures d.SameAxis(e) <==> (Vertical(d) <==> Vertical(e))
  {
  }

  /** Up lowers the row, Down raises it, Left lowers the column and Right raises it, modulo the size of the board. */
  lemma {:induction false} StepOnTheTorus(p: Point, w: nat, h: nat)
    requires OnBoard(p, w, h)
    ensures Adjacent(p, Up, w, h) == Point(p.x, (p.y - 1) % h)
    ensures Adjacent(p, Down, w, h) == Point(p.x, (p.y + 1) % h)
    ensures Adjacent(p, Left, w, h) == Point((p.x - 1) % w, p.y)
    ensures Adjacent(p, Right, w, h) == Point((p.x + 1) % w, p.y)
  {
    OneAround(p.x, w);
    OneAround(p.y, h);
  }

  lemma {:induction false} OneAround(a: nat, n: nat)
    requires a < n
    ensures (a - 1) % n == if a == 0 then n - 1 else a - 1
    ensures (a + 1) % n == if a == n - 1 then 0 else a + 1
  {
    if a == 0 {
      assert -1 == n * -1 + (n - 1);
    }
  }

  /** p and q are horizontal or vertical neighbours without wrapping round. */
  predicate UnitStep(p: Point, q: Point) {
    || (p.x == q.x && (p.y == q.y + 1 || q.y == p.y + 1))
    || (p.y == q.y && (p.x == q.x + 1 || q.x == p.x + 1))
  }

  predicate Interior(p: Point, w: nat, h: nat) {
    0 < p.x < w - 1 && 0 < p.y < h - 1
  }

  /** Turning round is its own inverse, never a fixed point, and undoes a step. */
  lemma {:induction false} OppositeUndoes(p: Point, d: Direction, w: nat, h: nat)
    requires OnBoard(p, w, h)
    ensures d.Opposite().Opposite() == d != d.Opposite()
    ensures Adjacent(Adjacent(p, d, w, h), d.Opposite(), w, h) == p
  {
  }

  /** On a board of at least 3 by 3 cells, the four neighbours of a cell are four different cells. */
  lemma {:induction false} NeighboursDiffer(p: Point, d: Direction, e: Direction, w: nat, h: nat)
    requires OnBoard(p, w, h) && w >= 3 && h >= 3
    ensures Adjacent(p, d, w, h) == Adjacent(p, e, w, h) <==> d == e
    ensures Adjacent(p, d, w, h) != p
  {
  }

  /** From strictly inside the border no step wraps round. */
  lemma {:induction false} InteriorStep(p: Point, d: Direction, w: nat, h: nat)
    requires Interior(p, w, h)
    ensures UnitStep(p, Adjacent(p, d, w, h))
  {
  }
}
