/** The board: an index from cells to what occupies them. */
module Boards {
  import opened Geometry
  import opened Blocks
  import opened Definitions

  datatype BoardState = EmptyCell | WallCell | SnakeCell | NumberCell

  /** The contents of a board as a value. */
  type Grid = map<Point, BoardState>

  function Paint(g: Grid, cells: set<Point>, state: BoardState): (r: Grid)
    ensures r.Keys == g.Keys
  {
    map p | p in g :: if p in cells then state else g[p]
  }

  lemma {:induction false} PaintNothing(g: Grid, block: Block)
    requires block.min.x == block.max.x
    ensures Paint(g, block.Cells(), NumberCell) == g
  {
  }

  /** A board with nothing but its walls. */
  ghost function InitialGrid(def: LevelDefinition): (r: Grid)
    ensures r.Keys == Region(def.w, def.h)
  {
    map p | p in Region(def.w, def.h) :: if def.IsWall(p) then WallCell else EmptyCell
  }

  class Board {
    var states: array2<BoardState>

    ghost function Grid(): (g: Grid)
      reads this, states
      ensures g.Keys == Region(states.Length0, states.Length1)
    {
      map p | p in Region(states.Length0, states.Length1) :: states[p.x, p.y]
    }

    constructor ()
      ensures fresh(states) && states.Length0 == 0 && states.Length1 == 0
    {
      states := new BoardState[0, 0];
    }

    function At(p: Point): (s: BoardState)
      reads this, states
      requires OnBoard(p, states.Length0, states.Length1)
      ensures s == Grid()[p]
    {
      states[p.x, p.y]
    }

    method Set(p: Point, state: BoardState)
      requires OnBoard(p, states.Length0, states.Length1)
      modifies states
      ensures Grid() == old(Grid())[p := state]
    {
      states[p.x, p.y] := state;
      assert Grid().Keys == old(Grid())[p := state].Keys;
    }

    method Assign(block: Block, state: BoardState)
      requires block.Walkable() && block.max.x <= states.Length0 && block.max.y <= states.Length1
      modifies states
      ensures Grid() == Paint(old(Grid()), block.Cells(), state)
    {
      var it := new Iterator(block);
      while it.point != block.End()
        invariant block.Visits(it.point)
        invariant forall p :: OnBoard(p, states.Length0, states.Length1) ==>
          states[p.x, p.y] == if block.Has(p) && Before(p, it.point) then state else old(states[p.x, p.y])
        decreases block.max.x - it.point.x, block.max.y - it.point.y
      {
        states[it.point.x, it.point.y] := state;
        it.Increment();
      }
    }

    /** Lay out a realised level definition: exactly its border and its blocks become wall. */
    method Init(def: LevelDefinition)
      requires def.LaysOut() && def.randomBlocks == []
      modifies this
      ensures fresh(states) && states.Length0 == def.w && states.Length1 == def.h
      ensures Grid() == InitialGrid(def)
    {
      hide Paint, WithBlocks, InitialGrid;
      states := new BoardState[def.w, def.h];
      InitBorder(def);
      var i := 0;
      while i < |def.blocks|
        invariant 0 <= i <= |def.blocks|
        invariant fresh(states) && states.Length0 == def.w && states.Length1 == def.h
        invariant Grid() == WithBlocks(def, i)
      {
        assert def.InBounds(def.blocks[i]);
        Assign(def.blocks[i], WallCell);
        WithOneMoreBlock(def, i);
        i := i + 1;
      }
      WithAllBlocks(def);
    }

    /** The first half of Init: empty the board and wall in its border. */
    method InitBorder(def: LevelDefinition)
      requires def.LaysOut() && states.Length0 == def.w && states.Length1 == def.h
      modifies states
      ensures Grid() == WithBlocks(def, 0)
    {
      ghost var before := Grid();
      Assign(Rectangle(0, 0, def.w, def.h), EmptyCell);
      Assign(Rectangle(0, 0, def.w, 1), WallCell);
      Assign(Rectangle(0, def.h - 1, def.w, 1), WallCell);
      Assign(Rectangle(0, 0, 1, def.h), WallCell);
      Assign(Rectangle(def.w - 1, 0, 1, def.h), WallCell);
      BorderStrips(def, before);
    }
  }

  /** Painting the four strips one over the other walls in exactly the border. */
  lemma {:induction false} BorderStrips(def: LevelDefinition, g: Grid)
    requires def.LaysOut() && g.Keys == Region(def.w, def.h)
    ensures
      var g1 := Paint(g, Rectangle(0, 0, def.w, def.h).Cells(), EmptyCell);
      var g2 := Paint(g1, Rectangle(0, 0, def.w, 1).Cells(), WallCell);
      var g3 := Paint(g2, Rectangle(0, def.h - 1, def.w, 1).Cells(), WallCell);
      var g4 := Paint(g3, Rectangle(0, 0, 1, def.h).Cells(), WallCell);
      var g5 := Paint(g4, Rectangle(def.w - 1, 0, 1, def.h).Cells(), WallCell);
      g5 == WithBlocks(def, 0)
  {
  }

  /** The board of def with its border and only the first n blocks laid out. */
  ghost function WithBlocks(def: LevelDefinition, n: nat): (r: Grid)
    requires n <= |def.blocks|
  {
    map p | p in Region(def.w, def.h) ::
      if def.Border(p) || exists k :: 0 <= k < n && def.blocks[k].Has(p) then WallCell else EmptyCell
  }

  lemma {:induction false} WithAllBlocks(def: LevelDefinition)
    ensures WithBlocks(def, |def.blocks|) == InitialGrid(def)
  {
  }

  lemma {:induction false} WithOneMoreBlock(def: LevelDefinition, n: nat)
    requires n < |def.blocks|
    ensures Paint(WithBlocks(def, n), def.blocks[n].Cells(), WallCell) == WithBlocks(def, n + 1)
  {
  }

  /** What the board of a level shows before any snake has moved: wall on the border, in the fixed
      blocks and on exactly the drawn cells of the random blocks, and nothing anywhere else. */
  lemma {:induction false} RealisedBoard(def: LevelDefinition, draw: Draw, p: Point)
    requires def.WellFormed()
    ensures Realised(def, draw).WellFormed()
    ensures p in InitialGrid(Realised(def, draw)) <==> OnBoard(p, def.w, def.h)
    ensures OnBoard(p, def.w, def.h) ==>
      InitialGrid(Realised(def, draw))[p]
      == if || def.Border(p) || AnyHas(def.blocks, p)
            || exists k :: 0 <= k < |def.randomBlocks| && def.randomBlocks[k].Has(p) && draw(k, p)
         then WallCell else EmptyCell
  {
    hide ChosenBlocks, AnyHas;
    RealisedWalls(def, draw, p);
  }
}
