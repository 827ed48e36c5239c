/** Rectangular blocks of cells and the iterator that walks over them column by column. */
module Blocks {
  import opened Geometry

  /** The cells with min.x <= x < max.x and min.y <= y < max.y. */
  datatype Block = Block(min: Point, max: Point) {
    predicate Has(p: Point) {
      min.x <= p.x < max.x && min.y <= p.y < max.y
    }

    function Cells(): (cells: set<Point>)
      ensures forall p :: p in cells <==> Has(p)
    {
      set x, y | min.x <= x < max.x && min.y <= y < max.y :: Point(x, y)
    }

    function Height(): nat {
      Wrap(max.y - min.y)
    }

    function Begin(): Point {
      min
    }

    function End(): Point {
      Point(max.x, min.y)
    }

    /** What iteration needs: no cells at all because there is no column, or columns of positive height. */
    predicate Walkable() {
      && max.x < WORD && max.y < WORD
      && (min.x == max.x || (min.x < max.x && min.y < max.y))
    }

    /** A position the iterator can be in: a cell, or the end. */
    predicate Visits(p: Point) {
      Has(p) || p == End()
    }
  }

  function Rectangle(x: nat, y: nat, w: nat, h: nat): Block {
    Block(Point(x, y), Point(x + w, y + h))
  }

  // ---------------------------------------------------------------- single steps

  function Next(b: Block, p: Point): Point {
    if Wrap(p.y + 1) == b.max.y then Point(Wrap(p.x + 1), b.min.y) else Point(p.x, Wrap(p.y + 1))
  }

  function Previous(b: Block, p: Point): Point {
    if Wrap(p.y - 1) < b.min.y then Point(Wrap(p.x - 1), Wrap(b.max.y - 1)) else Point(p.x, Wrap(p.y - 1))
  }

  /** n single steps, forward or backward. */
  function Steps(b: Block, p: Point, n: int): Point
    decreases if n < 0 then -n else n
  {
    if n == 0 then p
    else if n > 0 then Steps(b, Next(b, p), n - 1)
    else Steps(b, Previous(b, p), n + 1)
  }

  /** Where row y of column x lies in the block when rows run over into the neighbouring columns. */
  function Normal(b: Block, x: nat, y: int): (p: Point)
    requires b.min.y < b.max.y < WORD
    ensures b.min.y <= p.y < b.max.y
    decreases if y < b.min.y then b.min.y - y else if y >= b.max.y then y - b.max.y + 1 else 0
  {
    if y < b.min.y then Normal(b, Wrap(x - 1), y + b.Height())
    else if y >= b.max.y then Normal(b, Wrap(x + 1), y - b.Height())
    else Point(x, y)
  }

  lemma {:induction false} NextIsNormal(b: Block, p: Point, n: int)
    requires b.min.y < b.max.y < WORD && p.x < WORD
    requires b.min.y <= p.y < b.max.y && n > 0
    ensures
      var q := Next(b, p);
      q.x < WORD && b.min.y <= q.y < b.max.y && Normal(b, p.x, p.y + n) == Normal(b, q.x, q.y + n - 1)
  {
  }

  lemma {:induction false} PreviousIsNormal(b: Block, p: Point, n: int)
    requires b.min.y < b.max.y < WORD && p.x < WORD
    requires b.min.y <= p.y < b.max.y && n < 0
    requires b.min.y > 0 || p.y + n >= 0
    ensures
      var q := Previous(b, p);
      q.x < WORD && b.min.y <= q.y < b.max.y && (b.min.y > 0 || q.y + (n + 1) >= 0)
      && Normal(b, p.x, p.y + n) == Normal(b, q.x, q.y + n + 1)
  {
  }

  lemma {:induction false} NormalRunsOver(b: Block, p: Point)
    requires b.min.y < b.max.y < WORD && p.y < WORD
    ensures p.y < b.min.y ==>
      && p.y < Wrap(p.y + b.Height()) < b.max.y
      && Normal(b, p.x, p.y) == Normal(b, Wrap(p.x - 1), Wrap(p.y + b.Height()))
    ensures p.y >= b.max.y ==>
      && b.min.y <= Wrap(p.y - b.Height()) < p.y
      && Normal(b, p.x, p.y) == Normal(b, Wrap(p.x + 1), Wrap(p.y - b.Height()))
  {
  }

  lemma {:induction false} AlreadyNormal(b: Block, p: Point)
    requires b.min.y <= p.y < b.max.y < WORD
    ensures Normal(b, p.x, p.y) == p
  {
  }

  /** Stepping n times runs over into the neighbouring columns. Only in a block that reaches up to
      row 0 can steps back leave it: there a decremented uint32_t turns into the largest one. */
  lemma {:induction false} StepsAreNormal(b: Block, p: Point, n: int)
    requires b.min.y < b.max.y < WORD && p.x < WORD
    requires b.min.y <= p.y < b.max.y
    requires b.min.y > 0 || p.y + n >= 0
    ensures Steps(b, p, n) == Normal(b, p.x, p.y + n)
    decreases if n < 0 then -n else n
  {
    hide Next, Previous, Normal;
    if n > 0 {
      NextIsNormal(b, p, n);
      StepsAreNormal(b, Next(b, p), n - 1);
    } else if n < 0 {
      PreviousIsNormal(b, p, n);
      StepsAreNormal(b, Previous(b, p), n + 1);
    } else {
      AlreadyNormal(b, p);
    }
  }

  /** In a block that reaches up to row 0, steps back never change the column. */
  lemma {:induction false} StepsBackFromRowZero(b: Block, p: Point, n: int)
    requires b.min.y == 0 && p.y < WORD && n <= 0
    ensures Steps(b, p, n) == Point(p.x, Wrap(p.y + n))
    decreases -n
  {
    if n < 0 {
      StepsBackFromRowZero(b, Previous(b, p), n + 1);
    }
  }

  /** Rows run over once for every full height of the block. */
  lemma {:induction false} NormalAt(b: Block, x: nat, y: int, q: int, r: nat)
    requires b.min.y < b.max.y < WORD && x < WORD
    requires r < b.max.y - b.min.y && y - b.min.y == (b.max.y - b.min.y) * q + r
    ensures Normal(b, x, y) == Point(Wrap(x + q), b.min.y + r)
    decreases if y < b.min.y then b.min.y - y else if y >= b.max.y then y - b.max.y + 1 else 0
  {
    var height := b.max.y - b.min.y;
    if y < b.min.y {
      assert height * (q + 1) == height * q + height;
      NormalAt(b, Wrap(x - 1), y + height, q + 1, r);
      WrapsOn(x, -1, q);
    } else if y >= b.max.y {
      assert height * (q - 1) == height * q - height;
      NormalAt(b, Wrap(x + 1), y - height, q - 1, r);
      WrapsOn(x, 1, q);
    } else {
      Divided(height, 0, y - b.min.y, q, r);
    }
  }

  lemma {:induction false} WrapsOn(x: int, step: int, q: int)
    ensures Wrap(Wrap(x + step) + q - step) == Wrap(x + q)
  {
  }

  /** Quotient and remainder are unique. */
  lemma {:induction false} Divided(n: int, q: int, r: int, k: int, m: int)
    requires 0 <= r < n && 0 <= m < n && n * q + r == n * k + m
    ensures q == k && r == m
  {
    if q > k {
      AtLeastOnce(n, q, k);
    } else if q < k {
      AtLeastOnce(n, k, q);
    }
  }

  lemma {:induction false} AtLeastOnce(n: int, q: int, k: int)
    requires n > 0 && q > k
    ensures n * q >= n * k + n
  {
    assert n * q == n * (q - k - 1) + n * k + n;
  }

  /** Two rows run over to the same cell exactly if they are apart by a multiple of what brings both
      the row and the column, a uint32_t, back to where they were. */
  lemma {:induction false} SameCell(b: Block, x: nat, y: int, k: int)
    requires b.min.y < b.max.y < WORD && x < WORD
    ensures Normal(b, x, y + k * WORD) == Normal(b, x, y) <==> k % (b.max.y - b.min.y) == 0
  {
    hide Normal, Wrap;
    var height := b.max.y - b.min.y;
    var q, r := Quotient(y - b.min.y, height);
    var c, d := Quotient(k, height);
    NormalAt(b, x, y, q, r);
    if d == 0 {
      Scaled(height, q, c);
      NormalAt(b, x, y + k * WORD, q + c * WORD, r);
      WrapsAlike(x + q, c);
    } else {
      var q', r' := Quotient(y - b.min.y + k * WORD, height);
      NormalAt(b, x, y + k * WORD, q', r');
      if r' == r && Wrap(x + q') == Wrap(x + q) {
        var j := WrappedApart(x + q, x + q');
        Scaled(height, q, j);
        Divided(height, c, d, j, 0);
      }
    }
  }

  lemma {:induction false} Quotient(a: int, n: int) returns (q: int, r: nat)
    requires n > 0
    ensures a == n * q + r && r < n && r == a % n
  {
    q, r := a / n, a % n;
  }

  lemma {:induction false} Scaled(height: int, q: int, c: int)
    ensures height * (q + c * WORD) == height * q + height * c * WORD
  {
  }

  lemma {:induction false} WrapsAlike(n: int, j: int)
    ensures Wrap(n + j * WORD) == Wrap(n)
  {
  }

  lemma {:induction false} WrappedApart(m: int, n: int) returns (j: int)
    requires Wrap(m) == Wrap(n)
    ensures n == m + j * WORD
  {
    j := n / WORD - m / WORD;
  }

  /** Back in a block that reaches up to row 0, the row is still one of the block; otherwise it does not
      overflow, or overflows a multiple of the height of the block times. */
  predicate StaysExact(b: Block, p: Point, n: int)
    requires b.min.y < b.max.y
  {
    if n < 0 && b.min.y == 0 then Wrap(p.y + n) < b.max.y
    else ((p.y + n) / WORD) % (b.max.y - b.min.y) == 0
  }

  /** For exactly which n moving n positions at once is n single steps. */
  lemma {:induction false} AdvanceIsSteps(b: Block, p: Point, n: int)
    requires b.min.y < b.max.y < WORD && p.x < WORD
    requires b.min.y <= p.y < b.max.y
    ensures Normal(b, p.x, Wrap(p.y + n)) == Steps(b, p, n) <==> StaysExact(b, p, n)
  {
    hide Normal, Steps;
    if n < 0 && b.min.y == 0 {
      StepsBackFromRowZero(b, p, n);
      var q := Point(p.x, Wrap(p.y + n));
      if q.y < b.max.y {
        AlreadyNormal(b, q);
      }
    } else {
      StepsAreNormal(b, p, n);
      var k := (p.y + n) / WORD;
      assert p.y + n == Wrap(p.y + n) + k * WORD;
      SameCell(b, p.x, Wrap(p.y + n), k);
    }
  }

  /** One step back by advance(-1) is a decrement exactly when the row is not row 0. */
  lemma {:induction false} OneStepBack(b: Block, p: Point)
    requires b.min.y < b.max.y < WORD && p.x < WORD
    requires b.min.y <= p.y < b.max.y
    ensures Normal(b, p.x, Wrap(p.y - 1)) == Previous(b, p) <==> p.y != 0
  {
    AdvanceIsSteps(b, p, -1);
    assert Steps(b, p, -1) == Steps(b, Previous(b, p), 0);
  }

  // ---------------------------------------------------------------- the walk

  /** The cells visited from p on until the end is reached. */
  function Walk(b: Block, p: Point): seq<Point>
    requires b.Walkable() && b.Visits(p)
    decreases b.max.x - p.x, b.max.y - p.y
  {
    if p == b.End() then [] else [p] + Walk(b, Next(b, p))
  }

  /** From a cell of the block the iterator moves on to another cell or to the end. */
  lemma {:induction false} NextVisits(b: Block, p: Point)
    requires b.Walkable() && b.Has(p)
    ensures
      var q := Next(b, p);
      b.Visits(q) && (q.x == p.x + 1 || (q.x == p.x && q.y == p.y + 1))
  {
  }

  /** p comes strictly before q in the walk. */
  predicate Before(p: Point, q: Point) {
    p.x < q.x || (p.x == q.x && p.y < q.y)
  }

  /** The walk from p visits exactly the cells of the block that are not before p, in strict order. */
  lemma {:induction false} WalkVisits(b: Block, p: Point)
    requires b.Walkable() && b.Visits(p)
    ensures forall q :: q in Walk(b, p) <==> b.Has(q) && !Before(q, p)
    ensures forall i, j :: 0 <= i < j < |Walk(b, p)| ==> Before(Walk(b, p)[i], Walk(b, p)[j])
    decreases b.max.x - p.x, b.max.y - p.y
  {
    if p != b.End() {
      var q := Next(b, p);
      WalkVisits(b, q);
      var rest := Walk(b, q);
      assert Walk(b, p) == [p] + rest;
      forall j | 0 <= j < |rest|
        ensures Before(p, rest[j])
      {
        assert rest[j] in rest;
      }
    }
  }

  /** Iterating over a block visits each of its cells exactly once, and stops. */
  lemma {:induction false} WalkVisitsEachCellOnce(b: Block)
    requires b.Walkable()
    ensures forall q :: q in Walk(b, b.Begin()) <==> q in b.Cells()
    ensures forall i, j :: 0 <= i < j < |Walk(b, b.Begin())| ==> Walk(b, b.Begin())[i] != Walk(b, b.Begin())[j]
  {
    WalkVisits(b, b.Begin());
  }

  // ---------------------------------------------------------------- the iterator object

  class Iterator {
    const block: Block
    var point: Point

    constructor (b: Block)
      ensures block == b && point == b.Begin()
    {
      block := b;
      point := b.min;
    }

    method Increment()
      modifies this
      ensures point == Next(block, old(point))
    {
      point := Point(point.x, Wrap(point.y + 1));
      if point.y == block.max.y {
        point := Point(point.x, block.min.y);
        point := Point(Wrap(point.x + 1), point.y);
      }
    }

    method Decrement()
      modifies this
      ensures point == Previous(block, old(point))
    {
      point := Point(point.x, Wrap(point.y - 1));
      if point.y < block.min.y {
        point := Point(point.x, Wrap(block.max.y - 1));
        point := Point(Wrap(point.x - 1), point.y);
      }
    }

    /** Moving n positions at once, and for which n that is n single steps. The loops stop in every case. */
    method Advance(n: int)
      requires block.min.y < block.max.y < WORD
      requires point.x < WORD && block.min.y <= point.y < block.max.y
      modifies this
      ensures point == Normal(block, old(point.x), Wrap(old(point.y) + n))
      ensures point == Steps(block, old(point), n) <==> StaysExact(block, old(point), n)
    {
      hide Steps, StaysExact, Normal;
      AdvanceIsSteps(block, point, n);
      ghost var landing := Normal(block, point.x, Wrap(point.y + n));
      point := Point(point.x, Wrap(point.y + n));
      while point.y < block.min.y
        invariant point.x < WORD && point.y < WORD
        invariant Normal(block, point.x, point.y) == landing
        decreases block.min.y - point.y
      {
        NormalRunsOver(block, point);
        point := Point(point.x, Wrap(point.y + block.Height()));
        point := Point(Wrap(point.x - 1), point.y);
      }
      while point.y >= block.max.y
        invariant block.min.y <= point.y < WORD && point.x < WORD
        invariant Normal(block, point.x, point.y) == landing
        decreases point.y
      {
        NormalRunsOver(block, point);
        point := Point(point.x, Wrap(point.y - block.Height()));
        point := Point(Wrap(point.x + 1), point.y);
      }
      AlreadyNormal(block, point);
    }
  }
}
