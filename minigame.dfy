/**
 * `Game2048` of miniprogram/core/game2048.cjs.js: the same board, merge and spawn logic as
 * the core engine, drawing from `Math.random` only, and without `peekState`/`restoreState`.
 */
module MiniGame {
  import opened Wrappers
  import opened RandomSource
  import opened Line
  import opened Board
  import opened Weights
  import opened Engine
  import opened Game

  class MiniGame {
    const size: nat
    var weights: WeightTable
    const oracle: Oracle
    var score: real
    var grid: Grid

    ghost predicate Valid()
      reads this, oracle
    {
      IsGrid(grid, size) && weights != [] && oracle.Valid()
    }

    /** The `k`th value `Math.random` will return next. */
    function Next(k: nat): real
      requires Valid()
      reads this, oracle
    {
      Upcoming(null, oracle, k)
    }

    /**
     * `new Game2048({ size, randomTileWeights })` with the defaults 4 and `{ 1: 0.9, 2: 0.1 }`:
     * score 0 and an empty board on which `addRandomTile` has run twice.
     */
    constructor (sizeArg: Option<nat>, weightsArg: Option<WeightTable>, oracle: Oracle)
      requires weightsArg.GetOr(DefaultWeights()) != [] && oracle.Valid()
      modifies oracle
      ensures Valid()
      ensures size == sizeArg.GetOr(DEFAULT_SIZE) && weights == weightsArg.GetOr(DefaultWeights())
      ensures this.oracle == oracle
      ensures score == 0.0
      ensures var first := SpawnFrom(EmptyGrid(size), size, weights,
                                     old(Upcoming(null, oracle, 0)), old(Upcoming(null, oracle, 1)));
              var second := SpawnFrom(first.0, size, weights,
                                      old(Upcoming(null, oracle, first.1)), old(Upcoming(null, oracle, first.1 + 1)));
              grid == second.0 && oracle.used == old(oracle.used) + first.1 + second.1
    {
      size := sizeArg.GetOr(DEFAULT_SIZE);
      weights := weightsArg.GetOr(DefaultWeights());
      this.oracle := oracle;
      score := 0.0;
      grid := EmptyGrid(sizeArg.GetOr(DEFAULT_SIZE));
      new;
      DealTwo();
    }

    /** `reset()`: score 0 and a fresh board with two spawned tiles. */
    method Reset()
      requires Valid()
      modifies this, oracle
      ensures Valid() && weights == old(weights)
      ensures score == 0.0
      ensures var first := SpawnFrom(EmptyGrid(size), size, weights, old(Next(0)), old(Next(1)));
              var second := SpawnFrom(first.0, size, weights, old(Next(first.1)), old(Next(first.1 + 1)));
              grid == second.0 && oracle.used == old(oracle.used) + first.1 + second.1
    {
      score := 0.0;
      grid := EmptyGrid(size);
      DealTwo();
    }

    /** The two `addRandomTile()` calls that fill a new board. */
    method DealTwo()
      requires Valid()
      modifies this, oracle
      ensures Valid() && weights == old(weights) && score == old(score)
      ensures var first := SpawnFrom(old(grid), size, weights, old(Next(0)), old(Next(1)));
              var second := SpawnFrom(first.0, size, weights, old(Next(first.1)), old(Next(first.1 + 1)));
              grid == second.0 && oracle.used == old(oracle.used) + first.1 + second.1
    {
      ghost var spawn1 := SpawnFrom(grid, size, weights, Next(0), Next(1));
      var placedFirst := AddRandomTile();
      ghost var spawn2 := SpawnFrom(grid, size, weights, Next(0), Next(1));
      var placedSecond := AddRandomTile();
    }

    /** `getGrid()`: a copy of the board, `size` rows of `size` cells. */
    function GetGrid(): (g: Grid)
      requires Valid()
      reads this, oracle
      ensures IsGrid(g, size) && g == grid
    {
      grid
    }

    function GetScore(): real
      reads this
    {
      score
    }

    /** `canMove()`: whether the board has an empty cell or two equal neighbours. */
    method CanMove() returns (b: bool)
      requires Valid()
      ensures b == CanMoveSpec(grid, size)
    {
      b := CanMoveOn(grid, size);
    }

    /** `_weightedRandom(weights)`: one call of `Math.random`, mapped to a tile value of the table. */
    method WeightedRandom(t: WeightTable) returns (v: real)
      requires Valid() && t != []
      modifies oracle
      ensures Valid()
      ensures v == WeightedPick(t, old(Next(0))) && IsKey(t, v)
      ensures oracle.used == old(oracle.used) + 1
    {
      var x := oracle.Next();
      v := PickFrom(t, x);
    }

    /**
     * `addRandomTile()`: false on a full board, which is left as it was; otherwise one empty
     * cell, chosen by the first call of `Math.random`, takes the value the second one picks.
     */
    method AddRandomTile() returns (placed: bool)
      requires Valid()
      modifies this, oracle
      ensures Valid() && weights == old(weights) && score == old(score)
      ensures placed <==> old(EmptyCells(grid, size)) != []
      ensures var r := SpawnFrom(old(grid), size, weights, old(Next(0)), old(Next(1)));
              grid == r.0 && oracle.used == old(oracle.used) + r.1
    {
      var empty := CollectEmpty(grid, size);
      if |empty| == 0 {
        return false;
      }
      SpawnInto(empty);
      return true;
    }

    /** The second half of `addRandomTile`, once the list of empty cells is known not to be empty. */
    method SpawnInto(empty: seq<Cell>)
      requires Valid() && empty == EmptyCells(grid, size) && empty != []
      modifies this, oracle
      ensures Valid() && weights == old(weights) && score == old(score)
      ensures grid == AddTile(old(grid), size, old(Next(0)), WeightedPick(weights, old(Next(1))))
      ensures oracle.used == old(oracle.used) + 2
    {
      ghost var g0, x0, x1 := grid, Next(0), Next(1);
      EmptyCellsExact(grid, size);
      var x := oracle.Next();
      assert x == x0 && Next(0) == x1;
      var cell := empty[SpawnSlot(x, |empty|)];
      assert cell in empty;
      var val := WeightedRandom(weights);
      assert val == WeightedPick(weights, x1);
      grid := Place(grid, cell.0, cell.1, val);
      assert grid == AddTile(g0, size, x0, val);
    }

    /**
     * `_squashMerge(line, reverse)`: the squashed line; the merges are added to the score.
     * `Move` does not call this method: it slides the whole board with `Engine.SlideBoard`,
     * whose per-line step `Engine.SquashLine` is the same squash and gain.
     */
    method SquashMerge(line: seq<real>, reverse: bool) returns (out: seq<real>)
      modifies this
      ensures out == Squash(line, reverse, size)
      ensures score == old(score) + SquashGain(line, reverse)
      ensures grid == old(grid) && weights == old(weights)
    {
      var gain;
      out, gain := SquashLine(line, reverse, size);
      score := score + gain;
    }

    /**
     * `move(dir)`: an unknown direction changes nothing and returns false. Otherwise every
     * line is squashed, the merges are added to the score, and the result is true exactly
     * when the board changed, in which case one tile is spawned and only then.
     */
    method Move(dir: string) returns (moved: bool)
      requires Valid()
      modifies this, oracle
      ensures Valid() && weights == old(weights)
      ensures DirOf(dir).None? ==>
        !moved && grid == old(grid) && score == old(score) && oracle.used == old(oracle.used)
      ensures DirOf(dir).Some? ==>
        var d := DirOf(dir).value;
        var s := Slide(old(grid), size, d);
        var r := SpawnFrom(s, size, weights, old(Next(0)), old(Next(1)));
        (moved <==> s != old(grid)) &&
        score == old(score) + Gain(old(grid), size, d) &&
        (moved ==> grid == r.0 && oracle.used == old(oracle.used) + r.1) &&
        (!moved ==> grid == old(grid) && oracle.used == old(oracle.used))
    {
      var d := DirOf(dir);
      if d.None? {
        return false;
      }
      ghost var x0, x1 := Next(0), Next(1);
      var h, gain;
      h, moved, gain := SlideBoard(grid, size, d.value);
      grid, score := h, score + gain;
      assert Next(0) == x0 && Next(1) == x1;
      if moved {
        var _ := AddRandomTile();
        assert grid == SpawnFrom(h, size, weights, x0, x1).0;
      }
    }
  }
}
