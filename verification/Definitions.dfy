/** Level definitions, game settings and numbers, and the random realisation of a level definition. */
module Definitions {
  import opened Geometry
  import opened Blocks

  type PlayerId = nat

  /** A number to be eaten: a block one cell wide and two cells high, worth its value. */
  datatype Number = Number(position: Block, value: nat)

  const NUMBER_WIDTH: nat := 1
  const NUMBER_HEIGHT: nat := 2

  /** The default-constructed number, whose block has no cells. */
  const NO_NUMBER: Number := Number(Block(Point(WORD - 1, WORD - 1), Point(WORD - 1, WORD - 1)), 0)

  function NumberBlock(corner: Point): Block {
    Rectangle(corner.x, corner.y, NUMBER_WIDTH, NUMBER_HEIGHT)
  }

  /** A number has two cells, one above the other. */
  lemma {:induction false} NumberCells(corner: Point, p: Point)
    ensures NumberBlock(corner).Has(p) <==> p == corner || p == Point(corner.x, corner.y + 1)
  {
  }

  /** The settings a game depends on. The tick interval is not part of this model. */
  datatype GameSettings = GameSettings(
    startLevel: nat,
    startLives: int,
    startLength: nat,
    growthFactor: nat,
    deathScore: int)

  /** A level as stored in a level pack. The probability of a random block is left to the draws. */
  datatype LevelDefinition = LevelDefinition(
    w: nat,
    h: nat,
    blocks: seq<Block>,
    randomBlocks: seq<Block>,
    starts: seq<Position>)
  {
    predicate Border(p: Point) {
      p.x == 0 || p.y == 0 || p.x == w - 1 || p.y == h - 1
    }

    predicate InBounds(b: Block) {
      b.Walkable() && b.max.x <= w && b.max.y <= h
    }

    /** What laying out a board expects: some cells, and blocks that lie among them. */
    predicate LaysOut() {
      && 0 < w < WORD && 0 < h < WORD
      && (forall b :: b in blocks ==> InBounds(b))
    }

    /** What the program expects of a level pack: blocks and starts that lie on the board, and a
        board that has room for a number. */
    predicate WellFormed() {
      && LaysOut() && NUMBER_HEIGHT <= h
      && (forall b :: b in randomBlocks ==> InBounds(b))
      && (forall s :: s in starts ==> OnBoard(s.point, w, h))
    }

    /** The cells that are wall once the definition has been laid out on a board. */
    predicate IsWall(p: Point) {
      Border(p) || AnyHas(blocks, p)
    }
  }

  predicate AnyHas(blocks: seq<Block>, p: Point) {
    exists b :: b in blocks && b.Has(p)
  }

  /** The outcome of the draw made for a cell of the i-th random block. */
  type Draw = (nat, Point) -> bool

  function ChosenCells(cells: seq<Point>, i: nat, draw: Draw): seq<Block> {
    if cells == [] then []
    else
      (if draw(i, cells[0]) then [Rectangle(cells[0].x, cells[0].y, 1, 1)] else [])
      + ChosenCells(cells[1..], i, draw)
  }

  function ChosenBlocks(randomBlocks: seq<Block>, i: nat, draw: Draw): seq<Block>
    requires i <= |randomBlocks| && forall b :: b in randomBlocks ==> b.Walkable()
    decreases |randomBlocks| - i
  {
    if i == |randomBlocks| then []
    else
      ChosenCells(Walk(randomBlocks[i], randomBlocks[i].Begin()), i, draw)
      + ChosenBlocks(randomBlocks, i + 1, draw)
  }

  /** The definition in which every drawn cell of a random block has become a block of its own. */
  function Realised(def: LevelDefinition, draw: Draw): LevelDefinition
    requires def.WellFormed()
  {
    def.(blocks := def.blocks + ChosenBlocks(def.randomBlocks, 0, draw), randomBlocks := [])
  }

  method Realise(def: LevelDefinition, draw: Draw) returns (result: LevelDefinition)
    requires def.WellFormed()
    ensures result == Realised(def, draw)
  {
    result := def;
    var i := 0;
    while i < |def.randomBlocks|
      invariant 0 <= i <= |def.randomBlocks|
      invariant result == def.(blocks := result.blocks)
      invariant result.blocks + ChosenBlocks(def.randomBlocks, i, draw)
             == def.blocks + ChosenBlocks(def.randomBlocks, 0, draw)
    {
      assert def.InBounds(def.randomBlocks[i]);
      ghost var here := ChosenCells(Walk(def.randomBlocks[i], def.randomBlocks[i].Begin()), i, draw);
      ghost var later := ChosenBlocks(def.randomBlocks, i + 1, draw);
      assert result.blocks + (here + later) == (result.blocks + here) + later;
      var blocks := PushChosen(result.blocks, def.randomBlocks[i], i, draw);
      result := result.(blocks := blocks);
      i := i + 1;
    }
    result := result.(randomBlocks := []);
    assert result.blocks + [] == result.blocks;
  }

  /** The inner loop of Realise: push the drawn cells of one random block. */
  method PushChosen(blocks: seq<Block>, block: Block, i: nat, draw: Draw) returns (result: seq<Block>)
    requires block.Walkable()
    ensures result == blocks + ChosenCells(Walk(block, block.Begin()), i, draw)
  {
    result := blocks;
    var it := new Iterator(block);
    while it.point != block.End()
      invariant block.Visits(it.point)
      invariant result + ChosenCells(Walk(block, it.point), i, draw)
             == blocks + ChosenCells(Walk(block, block.Begin()), i, draw)
      decreases block.max.x - it.point.x, block.max.y - it.point.y
    {
      assert Walk(block, it.point)[1..] == Walk(block, Next(block, it.point));
      if draw(i, it.point) {
        result := result + [Rectangle(it.point.x, it.point.y, 1, 1)];
      }
      it.Increment();
    }
    assert result + [] == result;
  }

  lemma {:induction false} ChosenCellsCover(cells: seq<Point>, i: nat, draw: Draw, p: Point)
    ensures AnyHas(ChosenCells(cells, i, draw), p) <==> p in cells && draw(i, p)
    ensures forall b :: b in ChosenCells(cells, i, draw) ==> exists c :: c in cells && b == Rectangle(c.x, c.y, 1, 1)
  {
    if cells != [] {
      ChosenCellsCover(cells[1..], i, draw, p);
      var cell := Rectangle(cells[0].x, cells[0].y, 1, 1);
      assert cell.Has(p) <==> p == cells[0];
      AnyHasOfBoth(if draw(i, cells[0]) then [cell] else [], ChosenCells(cells[1..], i, draw), p);
    }
  }

  lemma {:induction false} AnyHasOfBoth(a: seq<Block>, b: seq<Block>, p: Point)
    ensures AnyHas(a + b, p) <==> AnyHas(a, p) || AnyHas(b, p)
  {
    forall c | c in a || c in b
      ensures c in a + b
    {
    }
  }

  lemma {:induction false} ChosenBlocksCover(randomBlocks: seq<Block>, i: nat, draw: Draw, p: Point)
    requires i <= |randomBlocks| && forall b :: b in randomBlocks ==> b.Walkable()
    ensures AnyHas(ChosenBlocks(randomBlocks, i, draw), p)
       <==> exists k :: i <= k < |randomBlocks| && randomBlocks[k].Has(p) && draw(k, p)
    decreases |randomBlocks| - i
  {
    hide AnyHas, ChosenBlocks;
    if i == |randomBlocks| {
      NoneHas(p);
      assert ChosenBlocks(randomBlocks, i, draw) == [] by { NoneChosen(randomBlocks, draw); }
    } else {
      OneChosen(randomBlocks, i, draw, p);
      ChosenBlocksCover(randomBlocks, i + 1, draw, p);
    }
  }

  lemma {:induction false} NoneChosen(randomBlocks: seq<Block>, draw: Draw)
    requires forall b :: b in randomBlocks ==> b.Walkable()
    ensures ChosenBlocks(randomBlocks, |randomBlocks|, draw) == []
  {
  }

  lemma {:induction false} OneChosen(randomBlocks: seq<Block>, i: nat, draw: Draw, p: Point)
    requires i < |randomBlocks| && forall b :: b in randomBlocks ==> b.Walkable()
    ensures AnyHas(ChosenBlocks(randomBlocks, i, draw), p)
       <==> (randomBlocks[i].Has(p) && draw(i, p)) || AnyHas(ChosenBlocks(randomBlocks, i + 1, draw), p)
  {
    hide AnyHas, ChosenCells, Walk;
    var walk := Walk(randomBlocks[i], randomBlocks[i].Begin());
    WalkVisits(randomBlocks[i], randomBlocks[i].Begin());
    ChosenCellsCover(walk, i, draw, p);
    AnyHasOfBoth(ChosenCells(walk, i, draw), ChosenBlocks(randomBlocks, i + 1, draw), p);
  }

  lemma {:induction false} NoneHas(p: Point)
    ensures !AnyHas([], p)
  {
  }

  /** Every block chosen is a single cell of one of the random blocks. */
  lemma {:induction false} ChosenBlocksAreCells(randomBlocks: seq<Block>, i: nat, draw: Draw, b: Block)
    requires i <= |randomBlocks| && forall b :: b in randomBlocks ==> b.Walkable()
    requires b in ChosenBlocks(randomBlocks, i, draw)
    ensures exists k, c :: i <= k < |randomBlocks| && randomBlocks[k].Has(c) && b == Rectangle(c.x, c.y, 1, 1)
    decreases |randomBlocks| - i
  {
    hide ChosenCells, Walk;
    var walk := Walk(randomBlocks[i], randomBlocks[i].Begin());
    if b in ChosenCells(walk, i, draw) {
      WalkVisits(randomBlocks[i], randomBlocks[i].Begin());
      ChosenCellsCover(walk, i, draw, b.min);
    } else {
      ChosenBlocksAreCells(randomBlocks, i + 1, draw, b);
    }
  }

  /** Realising a definition keeps it well formed, and its walls are the border, the fixed blocks
      and exactly the drawn cells of the random blocks. */
  lemma {:induction false} RealisedWalls(def: LevelDefinition, draw: Draw, p: Point)
    requires def.WellFormed()
    ensures Realised(def, draw).WellFormed() && Realised(def, draw).randomBlocks == []
    ensures Realised(def, draw).starts == def.starts
    ensures Realised(def, draw).IsWall(p) <==>
              || def.Border(p)
              || AnyHas(def.blocks, p)
              || exists k :: 0 <= k < |def.randomBlocks| && def.randomBlocks[k].Has(p) && draw(k, p)
  {
    hide ChosenBlocks, AnyHas;
    ChosenBlocksCover(def.randomBlocks, 0, draw, p);
    var chosen := ChosenBlocks(def.randomBlocks, 0, draw);
    AnyHasOfBoth(def.blocks, chosen, p);
    var r := Realised(def, draw);
    forall b | b in r.blocks
      ensures r.InBounds(b)
    {
      if b in def.blocks {
        assert def.InBounds(b);
      } else {
        ChosenBlocksAreCells(def.randomBlocks, 0, draw, b);
        var k, c :| 0 <= k < |def.randomBlocks| && def.randomBlocks[k].Has(c) && b == Rectangle(c.x, c.y, 1, 1);
        assert def.InBounds(def.randomBlocks[k]);
      }
    }
  }
}
