/**
 * `LevelManager` of core/levels.cjs.js, the minimal CommonJS manager: it stores its options as
 * given (no coercion, no cloning), picks the per-size table by truthiness, and knows nothing
 * of serialisation or seeded generators.
 */
module LevelsCjs {
  import opened Wrappers
  import opened Json
  import opened RandomSource
  import opened Board
  import opened Weights
  import opened Clone
  import opened Targets
  import Levels
  import M = MiniGame
  import G = Game

  /** The per-size tables, keyed by board side; a table may be empty, as a stored `{}` is. */
  type TablesBySize = map<nat, WeightTable>

  /** `randomTileWeightsBySize[size] || { 1: 0.9, 2: 0.1 }`: any stored table is truthy, even an empty one. */
  function ChosenWeights(m: TablesBySize, size: nat): (t: WeightTable)
    ensures size in m ==> t == m[size]
    ensures size !in m ==> t == DefaultWeights()
  {
    if size in m then m[size] else DefaultWeights()
  }

  /** No stored table is empty, so the engine always has something to draw from. */
  predicate NoEmptyTable(m: TablesBySize) {
    forall k :: k in m ==> m[k] != []
  }

  /**
   * Where the two managers part: for `{ 2: {} }` this one hands the empty table to the engine,
   * whose draw then fails, while the ES-module manager drops the empty table when cloning the
   * map and falls back to the default.
   */
  lemma EmptyTableContrast()
    ensures ChosenWeights(map[2 := []], 2) == []
    ensures Levels.WeightsFor(CleanedMap(JObj([("2", JObj([]))])), 2) == DefaultWeights()
  {
    var es := [("2", JObj([]))];
    assert Entries(JObj(es)) == es;
    assert CleanedTable(JObj([])) == [];
    assert es[..0] == [];
    assert CleanMapEntries(es) == [];
  }

  /** The target function when none is given: `2 ** (size + 3)`. */
  lemma DefaultTarget()
    ensures Target(Power, 2) == 32 && Target(Power, 3) == 64 && Target(Power, 4) == 128
  {
    PowerTargetSteps(2);
  }

  class LevelManagerCjs {
    var size: nat
    var carryScore: Json
    var targetFn: TargetFn
    var weightsBySize: TablesBySize
    var totalScoreBeforeThisLevel: real
    var game: M.MiniGame
    const oracle: Oracle

    ghost predicate Valid()
      reads this, game, oracle
    {
      NoEmptyTable(weightsBySize) && game.oracle == oracle && game.Valid() && game.size == size
    }

    /**
     * `new LevelManager({ startSize, carryScore, targetFn, randomTileWeightsBySize })`: the
     * options stored as given (2, true, the power target and no tables when absent), a total
     * of 0, and the first level's engine.
     */
    constructor (startSize: Option<nat>, carryScore: Json, targetFn: Option<TargetFn>,
                 weightsBySize: TablesBySize, oracle: Oracle)
      requires oracle.Valid() && NoEmptyTable(weightsBySize)
      modifies oracle
      ensures Valid() && this.oracle == oracle && fresh(game)
      ensures size == startSize.GetOr(2)
      ensures this.carryScore == if carryScore.JUndefined? then JBool(true) else carryScore
      ensures this.targetFn == targetFn.GetOr(Power)
      ensures this.weightsBySize == weightsBySize && totalScoreBeforeThisLevel == 0.0
      ensures game.weights == ChosenWeights(weightsBySize, size) && game.score == 0.0
      ensures var d := old(G.Dealt(EmptyGrid(startSize.GetOr(2)), startSize.GetOr(2),
                                 ChosenWeights(weightsBySize, startSize.GetOr(2)), null, oracle));
              game.grid == d.0 && oracle.used == old(oracle.used) + d.1
    {
      var s := startSize.GetOr(2);
      var g := CreateGame(s, weightsBySize, oracle);
      size := s;
      this.carryScore := if carryScore.JUndefined? then JBool(true) else carryScore;
      this.targetFn := targetFn.GetOr(Power);
      this.weightsBySize := weightsBySize;
      totalScoreBeforeThisLevel := 0.0;
      game := g;
      this.oracle := oracle;
    }

    /** `_createGame()`: an engine of side `size` drawing from the table chosen for that size. */
    static method CreateGame(size: nat, m: TablesBySize, oracle: Oracle) returns (g: M.MiniGame)
      requires oracle.Valid() && NoEmptyTable(m)
      modifies oracle
      ensures fresh(g) && g.Valid() && g.oracle == oracle
      ensures g.size == size && g.weights == ChosenWeights(m, size) && g.score == 0.0
      ensures var d := old(G.Dealt(EmptyGrid(size), size, ChosenWeights(m, size), null, oracle));
              g.grid == d.0 && oracle.used == old(oracle.used) + d.1
    {
      var weights := if size in m then m[size] else DefaultWeights();
      g := new M.MiniGame(Some(size), Some(weights), oracle);
    }

    /** `getLevel()`: side 2 is level 1; nothing keeps the side from being 0 or 1 here. */
    function GetLevel(): (level: int)
      reads this
      ensures level + 1 == size
    {
      size - 1
    }

    /** `getTarget()`. */
    method GetTarget() returns (t: nat)
      ensures t == Target(targetFn, size) && t >= 1
    {
      t := TargetOf(targetFn, size);
    }

    /** `getTotalScore()`. */
    function GetTotalScore(): (total: real)
      reads this, game
      ensures total - game.score == totalScoreBeforeThisLevel
    {
      totalScoreBeforeThisLevel + game.score
    }

    /** `checkPass()`: whether some cell has reached the target. */
    method CheckPass() returns (pass: bool)
      requires Valid()
      ensures pass <==>
        exists r, c :: 0 <= r < size && 0 <= c < size && game.grid[r][c] >= Target(targetFn, size) as real
    {
      var grid := game.GetGrid();
      var max := Levels.MaxCell(grid);
      var target := GetTarget();
      pass := max >= target as real;
    }

    /** `nextLevel()`: carry the score when `carryScore` is truthy, grow the side, start a fresh engine. */
    method NextLevel()
      requires Valid()
      modifies this, oracle
      ensures Valid() && fresh(game)
      ensures size == old(size) + 1 && GetLevel() == old(GetLevel()) + 1
      ensures totalScoreBeforeThisLevel ==
        old(totalScoreBeforeThisLevel) + if Truthy(carryScore) then old(game.score) else 0.0
      ensures carryScore == old(carryScore) && targetFn == old(targetFn) && weightsBySize == old(weightsBySize)
      ensures game.weights == ChosenWeights(weightsBySize, size) && game.score == 0.0
      ensures var d := old(G.Dealt(EmptyGrid(size + 1), size + 1, ChosenWeights(weightsBySize, size + 1), null, oracle));
              game.grid == d.0 && oracle.used == old(oracle.used) + d.1
      ensures GetTotalScore() == if Truthy(carryScore) then old(GetTotalScore()) else old(totalScoreBeforeThisLevel)
    {
      var g := CreateGame(size + 1, weightsBySize, oracle);
      if Truthy(carryScore) {
        totalScoreBeforeThisLevel := totalScoreBeforeThisLevel + game.GetScore();
      }
      size := size + 1;
      game := g;
    }
  }
}
