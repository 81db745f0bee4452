/**
 * `Game2048` of core/game2048.esm.js: one board of side `size`, its score, the tile weights,
 * and the generator `_rng` (a seeded generator, or `Math.random` when none is given).
 */
module Game {
  import opened Wrappers
  import opened Json
  import opened Rng
  import opened RandomSource
  import opened Line
  import opened Board
  import opened Weights
  import opened Engine

  /**
   * One `addRandomTile` when the generator returns `x` and then `y`: on a board without an
   * empty cell nothing happens and nothing is drawn; otherwise `x` picks the cell, `y` the
   * value, and two values are drawn. Returns the board and the number of values drawn.
   */
  function SpawnFrom(g: Grid, n: nat, t: WeightTable, x: real, y: real): (r: (Grid, nat))
    requires IsGrid(g, n) && t != [] && 0.0 <= x < 1.0
    ensures IsGrid(r.0, n) && (r.1 == 0 || r.1 == 2)
  {
    if EmptyCells(g, n) == [] then (g, 0) else (AddTile(g, n, x, WeightedPick(t, y)), 2)
  }

  /** The board side when none is given. */
  const DEFAULT_SIZE: nat := 4

  /** `{ grid, score }` as `peekState` returns it. */
  datatype Snapshot = Snapshot(grid: Grid, score: real)

  /** A snapshot as the JSON object it is stored as. */
  function SnapshotToJson(s: Snapshot): Json {
    JObj([("grid", GridToJson(s.grid)), ("score", JNum(s.score))])
  }

  /**
   * The board and score after `restoreState(state)` on a board of size `n` holding `g` and
   * `score`: a falsy or non-object `state` is ignored; otherwise the board is rebuilt from
   * `state.grid` and the score replaced when `Number(state.score)` is finite.
   */
  function Restored(state: Json, n: nat, g: Grid, score: real): (Grid, real) {
    if !Truthy(state) || !IsObject(state) then (g, score)
    else (RestoredGrid(Get(state, "grid"), n), ToNumber(Get(state, "score")).GetOr(score))
  }

  /** Restoring a snapshot gives back exactly the board and the score it recorded. */
  lemma SnapshotRoundTrip(s: Snapshot, n: nat, g: Grid, score: real)
    requires IsGrid(s.grid, n)
    ensures Restored(SnapshotToJson(s), n, g, score) == (s.grid, s.score)
  {
    var fields := [("grid", GridToJson(s.grid)), ("score", JNum(s.score))];
    assert fields[1..] == [("score", JNum(s.score))];
    assert "score" != "grid" by { assert "score"[0] != "grid"[0]; }
    assert Get(SnapshotToJson(s), "grid") == GridToJson(s.grid);
    assert Lookup(fields, "score") == Lookup(fields[1..], "score") == JNum(s.score);
    RestoreGridRoundTrip(s.grid, n);
  }

  /** A value that is not an object leaves board and score as they were. */
  lemma RestoreIgnoresNonObjects(state: Json, n: nat, g: Grid, score: real)
    requires !IsObject(state)
    ensures Restored(state, n, g, score) == (g, score)
  {
  }

  /**
   * Tile accounting for one move on a board whose tile values are all nonzero: the board
   * loses one tile per merge and, when the move changed it, gains the spawned tile, for which
   * there is always room.
   */
  lemma MoveAccounting(g: Grid, n: nat, t: WeightTable, d: Dir, x: real, y: real)
    requires IsGrid(g, n) && t != [] && 0.0 <= x < 1.0
    requires forall i :: 0 <= i < |t| ==> t[i].0 != 0.0
    ensures var s := Slide(g, n, d);
      s != g ==>
        EmptyCells(s, n) != [] &&
        GridCount(SpawnFrom(s, n, t, x, y).0) == GridCount(g) - Merges(g, n, d) + 1
    ensures Slide(g, n, d) == g ==> Merges(g, n, d) == 0
  {
    var s := Slide(g, n, d);
    SlideCount(g, n, d);
    if s != g {
      var r, c := MovedBoardHasRoom(g, n, d);
      SpawnWithRoom(s, n, t, x, y, r, c);
    }
  }

  /** A move that changes the board leaves an empty cell, which this lemma returns. */
  lemma MovedBoardHasRoom(g: Grid, n: nat, d: Dir) returns (r: nat, c: nat)
    requires IsGrid(g, n) && Slide(g, n, d) != g
    ensures IsGrid(Slide(g, n, d), n)
    ensures r < n && c < n && Slide(g, n, d)[r][c] == 0.0
  {
    var s := Slide(g, n, d);
    SlideChanged(g, n, d);
    SlideIsLines(g, n, d);
    var i :| 0 <= i < n && Squash(Lines(g, n, d)[i], Reversed(d), n) != Lines(g, n, d)[i];
    SquashChangeLeavesGap(Lines(g, n, d)[i], Reversed(d), n);
    var line := Lines(s, n, d)[i];
    var j :| 0 <= j < |line| && line[j] == 0.0;
    if Horizontal(d) {
      r, c := i, j;
    } else {
      r, c := j, i;
    }
  }

  /** A spawn on a board with room draws two values and adds one tile on an empty cell. */
  lemma SpawnWithRoom(g: Grid, n: nat, t: WeightTable, x: real, y: real, r: nat, c: nat)
    requires IsGrid(g, n) && t != [] && 0.0 <= x < 1.0
    requires forall i :: 0 <= i < |t| ==> t[i].0 != 0.0
    requires r < n && c < n && g[r][c] == 0.0
    ensures SpawnFrom(g, n, t, x, y).1 == 2
    ensures GridCount(SpawnFrom(g, n, t, x, y).0) == GridCount(g) + 1
    ensures exists i, j ::
      0 <= i < n && 0 <= j < n && g[i][j] == 0.0 && SpawnFrom(g, n, t, x, y).0 == Place(g, i, j, WeightedPick(t, y))
  {
    EmptyCellsExact(g, n);
    assert (r, c) in EmptyCells(g, n);
    var v := WeightedPick(t, y);
    var i, j :| 0 <= i < n && 0 <= j < n && g[i][j] == 0.0 && AddTile(g, n, x, v) == Place(g, i, j, v);
    PlaceCount(g, i, j, v);
  }

  /**
   * The opening deal of the constructor and of `reset`: on an empty board of side at least 2,
   * both spawns find room, each draws two values, and the board ends with exactly two tiles.
   */
  lemma OpeningDeal(n: nat, t: WeightTable, x0: real, y0: real, x1: real, y1: real)
    requires n >= 2 && t != [] && 0.0 <= x0 < 1.0 && 0.0 <= x1 < 1.0
    requires forall i :: 0 <= i < |t| ==> t[i].0 != 0.0
    ensures var first := SpawnFrom(EmptyGrid(n), n, t, x0, y0);
      var second := SpawnFrom(first.0, n, t, x1, y1);
      first.1 == 2 && second.1 == 2 && GridCount(second.0) == 2
  {
    var r, c := FirstDeal(n, t, x0, y0);
    var g1 := SpawnFrom(EmptyGrid(n), n, t, x0, y0).0;
    PlacedEmptyHasRoom(n, r, c, WeightedPick(t, y0));
    SpawnWithRoom(g1, n, t, x1, y1, r, if c == 0 then 1 else 0);
  }

  /** The first spawn of the opening deal places one tile, at the cell `(r, c)` it returns. */
  lemma FirstDeal(n: nat, t: WeightTable, x: real, y: real) returns (r: nat, c: nat)
    requires n >= 2 && t != [] && 0.0 <= x < 1.0
    requires forall i :: 0 <= i < |t| ==> t[i].0 != 0.0
    ensures r < n && c < n
    ensures SpawnFrom(EmptyGrid(n), n, t, x, y).1 == 2
    ensures SpawnFrom(EmptyGrid(n), n, t, x, y).0 == Place(EmptyGrid(n), r, c, WeightedPick(t, y))
    ensures GridCount(SpawnFrom(EmptyGrid(n), n, t, x, y).0) == 1
  {
    var e := EmptyGrid(n);
    ZeroBoardCount(e);
    SpawnWithRoom(e, n, t, x, y, 0, 0);
    r, c :| 0 <= r < n && 0 <= c < n && e[r][c] == 0.0 && SpawnFrom(e, n, t, x, y).0 == Place(e, r, c, WeightedPick(t, y));
  }

  /** After one tile on an empty board of side at least 2, its row still has an empty cell. */
  lemma PlacedEmptyHasRoom(n: nat, r: nat, c: nat, v: real)
    requires n >= 2 && r < n && c < n
    ensures IsGrid(Place(EmptyGrid(n), r, c, v), n)
    ensures Place(EmptyGrid(n), r, c, v)[r][if c == 0 then 1 else 0] == 0.0
  {
    var e := EmptyGrid(n);
    assert e[r][if c == 0 then 1 else 0] == 0.0;
  }

  /**
   * Two spawns in turn on `g` drawing from `xs`: the first takes the first two values when it
   * finds room, the second the two after those. Returns the board and the number of values drawn.
   */
  function DealWith(g: Grid, n: nat, t: WeightTable, xs: seq<real>): (d: (Grid, nat))
    requires IsGrid(g, n) && t != [] && |xs| == 4 && forall i :: 0 <= i < 4 ==> 0.0 <= xs[i] < 1.0
    ensures IsGrid(d.0, n)
  {
    var first := SpawnFrom(g, n, t, xs[0], xs[1]);
    var second := SpawnFrom(first.0, n, t, xs[first.1], xs[first.1 + 1]);
    (second.0, first.1 + second.1)
  }

  /** Two spawns on `g` with the values the generator in use returns next. */
  ghost function Dealt(g: Grid, n: nat, t: WeightTable, rng: Lcg?, oracle: Oracle): (Grid, nat)
    requires IsGrid(g, n) && t != [] && SourceValid(rng, oracle)
    reads rng, oracle
  {
    var first := SpawnFrom(g, n, t, Upcoming(rng, oracle, 0), Upcoming(rng, oracle, 1));
    var second := SpawnFrom(first.0, n, t, Upcoming(rng, oracle, first.1), Upcoming(rng, oracle, first.1 + 1));
    (second.0, first.1 + second.1)
  }

  /**
   * `grid` is the board of two spawns on an empty board of side `n` with the values the
   * generator in use returned, and those values have been taken.
   */
  twostate predicate DealtFresh(grid: Grid, n: nat, t: WeightTable, rng: Lcg?, oracle: Oracle)
    reads rng, oracle
  {
    t != [] && old(SourceValid(rng, oracle)) &&
    grid == old(Dealt(EmptyGrid(n), n, t, rng, oracle)).0 &&
    Consumed(rng, oracle, old(Dealt(EmptyGrid(n), n, t, rng, oracle)).1)
  }

  /** The deal from the generator in use is the deal with its next four values. */
  lemma DealtIsDealWith(g: Grid, n: nat, t: WeightTable, rng: Lcg?, oracle: Oracle)
    requires IsGrid(g, n) && t != [] && SourceValid(rng, oracle)
    ensures Dealt(g, n, t, rng, oracle) == DealWith(g, n, t, UpcomingDraws(rng, oracle))
  {
  }

  /**
   * The opening deal: on an empty board of side at least 2 four values are drawn and the
   * board ends with two tiles, whatever the values.
   */
  lemma DealOnEmptyBoard(n: nat, t: WeightTable, xs: seq<real>)
    requires n >= 2 && t != [] && |xs| == 4 && forall i :: 0 <= i < 4 ==> 0.0 <= xs[i] < 1.0
    requires forall i :: 0 <= i < |t| ==> t[i].0 != 0.0
    ensures DealWith(EmptyGrid(n), n, t, xs).1 == 4
    ensures GridCount(DealWith(EmptyGrid(n), n, t, xs).0) == 2
  {
    OpeningDeal(n, t, xs[0], xs[1], xs[2], xs[3]);
  }

  class Game {
    const size: nat
    var weights: WeightTable
    const rng: Lcg?
    const oracle: Oracle
    var score: real
    var grid: Grid

    ghost predicate Valid()
      reads this, rng, oracle
    {
      IsGrid(grid, size) && weights != [] && SourceValid(rng, oracle)
    }

    /** The `k`th value the generator in use will return next. */
    function Next(k: nat): real
      requires Valid()
      reads this, rng, oracle
    {
      Upcoming(rng, oracle, k)
    }

    /**
     * `new Game2048({ size, randomTileWeights, rng })`, where an absent size is 4, an absent
     * table `{ 1: 0.9, 2: 0.1 }`, and `rng` null stands for `Math.random`: score 0 and an empty
     * board on which `addRandomTile` has run twice.
     */
    constructor (sizeArg: Option<nat>, weightsArg: Option<WeightTable>, rng: Lcg?, oracle: Oracle)
      requires weightsArg.GetOr(DefaultWeights()) != [] && SourceValid(rng, oracle)
      modifies rng, oracle
      ensures Valid()
      ensures size == sizeArg.GetOr(DEFAULT_SIZE) && weights == weightsArg.GetOr(DefaultWeights())
      ensures this.rng == rng && this.oracle == oracle
      ensures score == 0.0
      ensures var d := old(Dealt(EmptyGrid(sizeArg.GetOr(DEFAULT_SIZE)), sizeArg.GetOr(DEFAULT_SIZE),
                                 weightsArg.GetOr(DefaultWeights()), rng, oracle));
              grid == d.0 && Consumed(rng, oracle, d.1)
    {
      size := sizeArg.GetOr(DEFAULT_SIZE);
      weights := weightsArg.GetOr(DefaultWeights());
      this.rng := rng;
      this.oracle := oracle;
      score := 0.0;
      grid := EmptyGrid(sizeArg.GetOr(DEFAULT_SIZE));
      new;
      DealTwo();
    }

    /** `reset()`: score 0 and a fresh board with two spawned tiles; size and weights stay. */
    method Reset()
      requires Valid()
      modifies this, rng, oracle
      ensures Valid() && weights == old(weights)
      ensures score == 0.0
      ensures var d := old(Dealt(EmptyGrid(size), size, weights, rng, oracle));
              grid == d.0 && Consumed(rng, oracle, d.1)
    {
      score := 0.0;
      grid := EmptyGrid(size);
      DealTwo();
    }

    /** The two `addRandomTile()` calls with which the constructor and `reset` fill a new board. */
    method DealTwo()
      requires Valid()
      modifies this, rng, oracle
      ensures Valid() && weights == old(weights) && score == old(score)
      ensures var d := old(Dealt(grid, size, weights, rng, oracle));
              grid == d.0 && Consumed(rng, oracle, d.1)
    {
      ghost var s0 := if rng != null then rng.state else 0;
      ghost var spawn1 := SpawnFrom(grid, size, weights, Next(0), Next(1));
      var placedFirst := AddRandomTile();
      ghost var k := spawn1.1;
      assert grid == spawn1.0;
      if rng != null {
        IterateAdd(s0, k, 1);
        IterateAdd(s0, k, 2);
      }
      assert Next(0) == old(Next(k)) && Next(1) == old(Next(k + 1));
      ghost var spawn2 := SpawnFrom(grid, size, weights, Next(0), Next(1));
      assert spawn2 == SpawnFrom(spawn1.0, size, weights, old(Next(k)), old(Next(k + 1)));
      var placedSecond := AddRandomTile();
      assert grid == spawn2.0;
      if rng != null {
        IterateAdd(s0, k, spawn2.1);
      }
    }

    /** `getGrid()`: a copy of the board, `size` rows of `size` cells. */
    function GetGrid(): (g: Grid)
      requires Valid()
      reads this, rng, oracle
      ensures IsGrid(g, size) && g == grid
    {
      grid
    }

    function GetScore(): real
      reads this
    {
      score
    }

    /** `canMove()`: whether the board has an empty cell or two equal neighbours. */
    method CanMove() returns (b: bool)
      requires Valid()
      ensures b == CanMoveSpec(grid, size)
    {
      b := CanMoveOn(grid, size);
    }

    /** `_weightedRandom(weights)`: one draw, mapped to a tile value of the table. */
    method WeightedRandom(t: WeightTable) returns (v: real)
      requires Valid() && t != []
      modifies rng, oracle
      ensures Valid()
      ensures v == WeightedPick(t, old(Next(0))) && IsKey(t, v)
      ensures Consumed(rng, oracle, 1)
    {
      var x := Pull(rng, oracle);
      v := PickFrom(t, x);
    }

    /**
     * `addRandomTile()`: false on a full board, which is left as it was; otherwise one empty
     * cell, chosen by the first draw, takes the tile value the second draw picks.
     */
    method AddRandomTile() returns (placed: bool)
      requires Valid()
      modifies this, rng, oracle
      ensures Valid() && weights == old(weights) && score == old(score)
      ensures placed <==> old(EmptyCells(grid, size)) != []
      ensures var r := SpawnFrom(old(grid), size, weights, old(Next(0)), old(Next(1)));
              grid == r.0 && Consumed(rng, oracle, r.1)
    {
      var empty := CollectEmpty(grid, size);
      if |empty| == 0 {
        return false;
      }
      SpawnInto(empty);
      return true;
    }

    /** The second half of `addRandomTile`, once the list of empty cells is known not to be empty. */
    method SpawnInto(empty: seq<Cell>)
      requires Valid() && empty == EmptyCells(grid, size) && empty != []
      modifies this, rng, oracle
      ensures Valid() && weights == old(weights) && score == old(score)
      ensures grid == AddTile(old(grid), size, old(Next(0)), WeightedPick(weights, old(Next(1))))
      ensures Consumed(rng, oracle, 2)
    {
      ghost var g0, x0, x1 := grid, Next(0), Next(1);
      ghost var s0 := if rng != null then rng.state else 0;
      EmptyCellsExact(grid, size);
      var x := Pull(rng, oracle);
      if rng != null {
        IterateAdd(s0, 1, 1);
      }
      var cell := empty[SpawnSlot(x, |empty|)];
      assert cell in empty;
      var val := WeightedRandom(weights);
      grid := Place(grid, cell.0, cell.1, val);
      assert grid == AddTile(g0, size, x0, val);
    }

    /**
     * `_squashMerge(line, reverse)`: the squashed line; the merges are added to the score.
     * `Move` does not call this method: it slides the whole board with `Engine.SlideBoard`,
     * whose per-line step `Engine.SquashLine` is the same squash and gain.
     */
    method SquashMerge(line: seq<real>, reverse: bool) returns (out: seq<real>)
      modifies this
      ensures out == Squash(line, reverse, size)
      ensures score == old(score) + SquashGain(line, reverse)
      ensures grid == old(grid) && weights == old(weights)
    {
      var gain;
      out, gain := SquashLine(line, reverse, size);
      score := score + gain;
    }

    /**
     * `move(dir)`: an unknown direction changes nothing and returns false. Otherwise every
     * line is squashed, the merges are added to the score, and the result is true exactly
     * when the board changed, in which case one tile is spawned and only then.
     */
    method Move(dir: string) returns (moved: bool)
      requires Valid()
      modifies this, rng, oracle
      ensures Valid() && weights == old(weights)
      ensures DirOf(dir).None? ==>
        !moved && grid == old(grid) && score == old(score) && Consumed(rng, oracle, 0)
      ensures DirOf(dir).Some? ==>
        var d := DirOf(dir).value;
        var s := Slide(old(grid), size, d);
        var r := SpawnFrom(s, size, weights, old(Next(0)), old(Next(1)));
        (moved <==> s != old(grid)) &&
        score == old(score) + Gain(old(grid), size, d) &&
        (moved ==> grid == r.0 && Consumed(rng, oracle, r.1)) &&
        (!moved ==> grid == old(grid) && Consumed(rng, oracle, 0))
    {
      var d := DirOf(dir);
      if d.None? {
        return false;
      }
      ghost var x0, x1 := Next(0), Next(1);
      var h, gain;
      h, moved, gain := SlideBoard(grid, size, d.value);
      grid, score := h, score + gain;
      assert Next(0) == x0 && Next(1) == x1;
      if moved {
        var _ := AddRandomTile();
        assert grid == SpawnFrom(h, size, weights, x0, x1).0;
      }
    }

    /** `peekState()`: the board and the score. */
    function PeekState(): (s: Snapshot)
      requires Valid()
      reads this, rng, oracle
      ensures IsGrid(s.grid, size)
      ensures Restored(SnapshotToJson(s), size, grid, score) == (grid, score)
    {
      SnapshotRoundTrip(Snapshot(grid, score), size, grid, score);
      Snapshot(grid, score)
    }

    /** `restoreState(state)`: rebuild board and score from a snapshot-like value. */
    method RestoreState(state: Json)
      requires Valid()
      modifies this
      ensures Valid() && weights == old(weights)
      ensures (grid, score) == Restored(state, size, old(grid), old(score))
    {
      if !Truthy(state) || !IsObject(state) {
        return;
      }
      grid := RestoreGridFrom(Get(state, "grid"), size);
      var scoreNum := ToNumber(Get(state, "score"));
      if scoreNum.Some? {
        score := scoreNum.value;
      }
    }
  }
}
