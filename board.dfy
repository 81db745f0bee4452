/**
 * The board of `Game2048` (core/game2048.esm.js, miniprogram/core/game2048.cjs.js) as a value:
 * a `size × size` grid of cells, `0` for an empty cell. This module states what a move, the
 * movability test and a spawn do to such a grid; the classes in the game modules are proved
 * to compute exactly these functions.
 */
module Board {
  import opened Wrappers
  import opened Line

  type Grid = seq<seq<real>>

  /** `n` rows of `n` cells. */
  predicate IsGrid(g: Grid, n: nat) {
    |g| == n && forall r :: 0 <= r < n ==> |g[r]| == n
  }

  /** Every row has `w` cells. */
  predicate IsRect(g: Grid, w: nat) {
    forall r :: 0 <= r < |g| ==> |g[r]| == w
  }

  /** `Array.from({ length: size }, () => Array(size).fill(0))`. */
  function EmptyGrid(n: nat): (g: Grid)
    ensures IsGrid(g, n)
    ensures forall r, c :: 0 <= r < n && 0 <= c < n ==> g[r][c] == 0.0
  {
    seq(n, r => Zeros(n))
  }

  /** Column `c`: `for (let r = 0; r < size; r++) col.push(grid[r][c])`. */
  function Column(g: Grid, c: nat): (col: seq<real>)
    requires forall r :: 0 <= r < |g| ==> c < |g[r]|
    ensures |col| == |g| && forall r :: 0 <= r < |g| ==> col[r] == g[r][c]
  {
    seq(|g|, r requires 0 <= r < |g| => g[r][c])
  }

  /** The columns of a grid of width `w`, each read top to bottom. */
  function Transpose(g: Grid, w: nat): (t: Grid)
    requires IsRect(g, w)
    ensures |t| == w && IsRect(t, |g|)
    ensures forall c, r :: 0 <= c < w && 0 <= r < |g| ==> t[c][r] == g[r][c]
  {
    seq(w, c requires 0 <= c < w => Column(g, c))
  }

  lemma TransposeTranspose(g: Grid, n: nat)
    requires IsGrid(g, n)
    ensures Transpose(Transpose(g, n), n) == g
  {
    var tt := Transpose(Transpose(g, n), n);
    forall r | 0 <= r < n ensures tt[r] == g[r] {
      assert forall c :: 0 <= c < n ==> tt[r][c] == g[r][c];
    }
  }

  // ---------------------------------------------------------------- directions and slides

  datatype Dir = Left | Right | Up | Down

  /** The directions `move` accepts; every other string is rejected. */
  function DirOf(s: string): (d: Option<Dir>)
    ensures d.Some? <==> s in {"left", "right", "up", "down"}
  {
    if s == "left" then Some(Left)
    else if s == "right" then Some(Right)
    else if s == "up" then Some(Up)
    else if s == "down" then Some(Down)
    else None
  }

  /** Rows for `left`/`right`, columns for `up`/`down`. */
  predicate Horizontal(d: Dir) {
    d == Left || d == Right
  }

  /** The `reverse` flag `_squashMerge` gets: `dir === 'right'` or `dir === 'down'`. */
  predicate Reversed(d: Dir) {
    d == Right || d == Down
  }

  /** Every line squashed toward its start (`reverse` false) or its end. */
  function SlideLines(ls: Grid, reverse: bool, n: nat): (out: Grid)
    ensures |out| == |ls|
    ensures forall i :: 0 <= i < |ls| ==> out[i] == Squash(ls[i], reverse, n)
  {
    seq(|ls|, i requires 0 <= i < |ls| => Squash(ls[i], reverse, n))
  }

  /** The lines a move squashes: the rows, or the columns. */
  function Lines(g: Grid, n: nat, d: Dir): (ls: Grid)
    requires IsGrid(g, n)
    ensures IsGrid(ls, n)
  {
    if Horizontal(d) then g else Transpose(g, n)
  }

  /** The board after the squashes of `move(d)`, before any spawn. */
  function Slide(g: Grid, n: nat, d: Dir): (s: Grid)
    requires IsGrid(g, n)
    ensures IsGrid(s, n)
  {
    var out := SlideLines(Lines(g, n, d), Reversed(d), n);
    assert IsGrid(out, n);
    if Horizontal(d) then out else Transpose(out, n)
  }

  /** The squashed lines of a move, in the order the move squashes them. */
  lemma SlideIsLines(g: Grid, n: nat, d: Dir)
    requires IsGrid(g, n)
    ensures Lines(Slide(g, n, d), n, d) == SlideLines(Lines(g, n, d), Reversed(d), n)
  {
    if !Horizontal(d) {
      var out := SlideLines(Lines(g, n, d), Reversed(d), n);
      assert IsGrid(out, n);
      TransposeTranspose(out, n);
    }
  }

  /** A move changes the board exactly when it changes one of the lines it squashes. */
  lemma SlideChanged(g: Grid, n: nat, d: Dir)
    requires IsGrid(g, n)
    ensures Slide(g, n, d) != g <==>
      exists i :: 0 <= i < n && Squash(Lines(g, n, d)[i], Reversed(d), n) != Lines(g, n, d)[i]
  {
    SlideIsLines(g, n, d);
    var ls := Lines(g, n, d);
    var out := SlideLines(ls, Reversed(d), n);
    if !Horizontal(d) {
      TransposeTranspose(g, n);
    }
    if Slide(g, n, d) != g {
      assert out != ls;
      assert exists i :: 0 <= i < n && out[i] != ls[i];
    }
  }

  // ---------------------------------------------------------------- totals over lines

  /** The score the squashes of the first lines add, in scan order. */
  function LinesGain(ls: Grid, reverse: bool): real {
    if ls == [] then 0.0 else LinesGain(ls[..|ls| - 1], reverse) + SquashGain(ls[|ls| - 1], reverse)
  }

  function LinesMerges(ls: Grid, reverse: bool): nat {
    if ls == [] then 0 else LinesMerges(ls[..|ls| - 1], reverse) + SquashMerges(ls[|ls| - 1], reverse)
  }

  lemma LinesGainPrefix(ls: Grid, reverse: bool, k: nat)
    requires k < |ls|
    ensures LinesGain(ls[..k + 1], reverse) == LinesGain(ls[..k], reverse) + SquashGain(ls[k], reverse)
  {
    assert ls[..k + 1][..k] == ls[..k];
  }

  /** The number of tiles on the lines. */
  function SumCounts(ls: Grid): nat {
    if ls == [] then 0 else SumCounts(ls[..|ls| - 1]) + Count(ls[|ls| - 1])
  }

  /** The number of tiles on the board. */
  function GridCount(g: Grid): nat {
    SumCounts(g)
  }

  /** What `move(d)` adds to the score. */
  function Gain(g: Grid, n: nat, d: Dir): real
    requires IsGrid(g, n)
  {
    LinesGain(Lines(g, n, d), Reversed(d))
  }

  /** How many merges `move(d)` performs. */
  function Merges(g: Grid, n: nat, d: Dir): nat
    requires IsGrid(g, n)
  {
    LinesMerges(Lines(g, n, d), Reversed(d))
  }

  lemma SumCountsSnoc(ls: Grid, x: seq<real>)
    ensures SumCounts(ls + [x]) == SumCounts(ls) + Count(x)
  {
    assert (ls + [x])[..|ls|] == ls;
  }

  lemma {:induction false} SumCountsEmptyRows(g: Grid)
    requires IsRect(g, 0)
    ensures SumCounts(g) == 0
  {
    if g != [] {
      SumCountsEmptyRows(g[..|g| - 1]);
      assert g[|g| - 1] == [];
    }
  }

  /** The grid without its last column. */
  function DropColumn(g: Grid, w: nat): (h: Grid)
    requires w > 0 && IsRect(g, w)
    ensures |h| == |g| && IsRect(h, w - 1)
  {
    seq(|g|, r requires 0 <= r < |g| => g[r][..w - 1])
  }

  lemma CountSnoc(s: seq<real>, x: real)
    ensures Count(s + [x]) == Count(s) + (if x != 0.0 then 1 else 0)
  {
    CompactAppend(s, [x]);
    assert [x][1..] == [];
  }

  /** Counting row by row equals the counts without the last column plus that column's count. */
  lemma {:induction false} SumCountsDropColumn(g: Grid, w: nat)
    requires w > 0 && IsRect(g, w)
    ensures SumCounts(g) == SumCounts(DropColumn(g, w)) + Count(Column(g, w - 1))
  {
    if g != [] {
      var h := |g| - 1;
      var init := g[..h];
      SumCountsDropColumn(init, w);
      assert DropColumn(g, w)[..h] == DropColumn(init, w);
      assert Column(g, w - 1) == Column(init, w - 1) + [g[h][w - 1]];
      CountSnoc(Column(init, w - 1), g[h][w - 1]);
      assert g[h] == g[h][..w - 1] + [g[h][w - 1]];
      CountSnoc(g[h][..w - 1], g[h][w - 1]);
    }
  }

  /** Counting tiles by columns gives the same total as counting by rows. */
  lemma {:induction false} SumCountsTranspose(g: Grid, w: nat)
    requires IsRect(g, w)
    ensures SumCounts(Transpose(g, w)) == SumCounts(g)
    decreases w
  {
    if w == 0 {
      SumCountsEmptyRows(g);
      assert Transpose(g, 0) == [];
    } else {
      var d := DropColumn(g, w);
      SumCountsTranspose(d, w - 1);
      SumCountsDropColumn(g, w);
      assert Transpose(g, w) == Transpose(d, w - 1) + [Column(g, w - 1)] by {
        var lhs := Transpose(g, w);
        var rhs := Transpose(d, w - 1) + [Column(g, w - 1)];
        forall c | 0 <= c < w ensures lhs[c] == rhs[c] {
          if c < w - 1 {
            assert forall r :: 0 <= r < |g| ==> d[r][c] == g[r][c];
          }
        }
      }
      SumCountsSnoc(Transpose(d, w - 1), Column(g, w - 1));
    }
  }

  /** Squashing lines removes one tile per merge. */
  lemma {:induction false} SlideLinesCount(ls: Grid, reverse: bool, n: nat)
    requires IsRect(ls, n)
    ensures SumCounts(SlideLines(ls, reverse, n)) == SumCounts(ls) - LinesMerges(ls, reverse)
  {
    if ls != [] {
      var k := |ls| - 1;
      SlideLinesCount(ls[..k], reverse, n);
      assert SlideLines(ls, reverse, n)[..k] == SlideLines(ls[..k], reverse, n);
      SquashFacts(ls[k], reverse, n);
    }
  }

  /** A move loses exactly one tile per merge (before the spawn). */
  lemma SlideCount(g: Grid, n: nat, d: Dir)
    requires IsGrid(g, n)
    ensures GridCount(Slide(g, n, d)) == GridCount(g) - Merges(g, n, d)
  {
    var ls := Lines(g, n, d);
    var out := SlideLines(ls, Reversed(d), n);
    SlideLinesCount(ls, Reversed(d), n);
    if !Horizontal(d) {
      assert IsGrid(out, n);
      SumCountsTranspose(out, n);
      SumCountsTranspose(g, n);
    }
  }

  /** On a board of non-negative tiles no move lowers the score. */
  lemma {:induction false} LinesGainNonNegative(ls: Grid, reverse: bool)
    requires forall i, j :: 0 <= i < |ls| && 0 <= j < |ls[i]| ==> ls[i][j] >= 0.0
    ensures LinesGain(ls, reverse) >= 0.0
  {
    if ls != [] {
      LinesGainNonNegative(ls[..|ls| - 1], reverse);
      SquashGainNonNegative(ls[|ls| - 1], reverse);
    }
  }

  lemma GainNonNegative(g: Grid, n: nat, d: Dir)
    requires IsGrid(g, n)
    requires forall r, c :: 0 <= r < n && 0 <= c < n ==> g[r][c] >= 0.0
    ensures Gain(g, n, d) >= 0.0
  {
    LinesGainNonNegative(Lines(g, n, d), Reversed(d));
  }

  // ---------------------------------------------------------------- movability

  predicate HasEmptyCell(g: Grid, n: nat)
    requires IsGrid(g, n)
  {
    exists r, c :: 0 <= r < n && 0 <= c < n && g[r][c] == 0.0
  }

  predicate HasTile(g: Grid, n: nat)
    requires IsGrid(g, n)
  {
    exists r, c :: 0 <= r < n && 0 <= c < n && g[r][c] != 0.0
  }

  /** Cell `(r, c)` equals the cell below it or the cell to its right. */
  predicate EqualNeighbourAt(g: Grid, n: nat, r: nat, c: nat)
    requires IsGrid(g, n) && r < n && c < n
  {
    (r + 1 < n && g[r + 1][c] == g[r][c]) || (c + 1 < n && g[r][c + 1] == g[r][c])
  }

  predicate HasEqualAdjacent(g: Grid, n: nat)
    requires IsGrid(g, n)
  {
    exists r, c :: 0 <= r < n && 0 <= c < n && EqualNeighbourAt(g, n, r, c)
  }

  /** What `canMove` reports: an empty cell, or two equal neighbours. */
  predicate CanMoveSpec(g: Grid, n: nat)
    requires IsGrid(g, n)
  {
    HasEmptyCell(g, n) || HasEqualAdjacent(g, n)
  }

  /** A line of a board that `canMove` rejects is full and has no equal neighbours. */
  lemma StuckLines(g: Grid, n: nat, d: Dir, i: nat)
    requires IsGrid(g, n) && !CanMoveSpec(g, n) && i < n
    ensures !HasZero(Lines(g, n, d)[i]) && !HasEqualNeighbours(Lines(g, n, d)[i])
  {
    var line := Lines(g, n, d)[i];
    forall j | 0 <= j < n ensures line[j] != 0.0 && (j + 1 < n ==> line[j] != line[j + 1]) {
      if Horizontal(d) {
        assert line[j] == g[i][j];
        assert !EqualNeighbourAt(g, n, i, j);
      } else {
        assert line[j] == g[j][i];
        assert !EqualNeighbourAt(g, n, j, i);
      }
    }
  }

  /** When `canMove` is false, no direction changes the board. */
  lemma StuckBoardDoesNotMove(g: Grid, n: nat, d: Dir)
    requires IsGrid(g, n) && !CanMoveSpec(g, n)
    ensures Slide(g, n, d) == g
    ensures Merges(g, n, d) == 0
  {
    var ls := Lines(g, n, d);
    forall i | 0 <= i < n
      ensures !HasZero(ls[i]) && !HasEqualNeighbours(ls[i]) && Squash(ls[i], Reversed(d), n) == ls[i]
    {
      StuckLines(g, n, d, i);
      SquashFixpoint(ls[i], Reversed(d), n);
    }
    assert SlideLines(ls, Reversed(d), n) == ls;
    if !Horizontal(d) {
      TransposeTranspose(g, n);
    }
    NoMergesOnFixedLines(ls, Reversed(d), n);
  }

  lemma {:induction false} NoMergesOnFixedLines(ls: Grid, reverse: bool, n: nat)
    requires forall i :: 0 <= i < |ls| ==> |ls[i]| == n && !HasZero(ls[i]) && !HasEqualNeighbours(ls[i])
    ensures LinesMerges(ls, reverse) == 0
  {
    if ls != [] {
      NoMergesOnFixedLines(ls[..|ls| - 1], reverse, n);
      SquashFixpoint(ls[|ls| - 1], reverse, n);
    }
  }

  /** A changed line makes a changed board. */
  lemma LineChangeMovesBoard(g: Grid, n: nat, d: Dir, i: nat)
    requires IsGrid(g, n) && i < n
    requires Squash(Lines(g, n, d)[i], Reversed(d), n) != Lines(g, n, d)[i]
    ensures Slide(g, n, d) != g
  {
    SlideIsLines(g, n, d);
  }

  lemma {:induction false} CountPositive(s: seq<real>, i: nat)
    requires i < |s| && s[i] != 0.0
    ensures Count(s) > 0
  {
    if i > 0 {
      CountPositive(s[1..], i - 1);
    }
  }

  /** A line with an empty cell and a tile moves in one of its two directions. */
  lemma GapLineMoves(g: Grid, n: nat, d: Dir, i: nat, z: nat, t: nat)
    requires IsGrid(g, n) && i < n && z < n && t < n
    requires Lines(g, n, d)[i][z] == 0.0 && Lines(g, n, d)[i][t] != 0.0
    ensures Slide(g, n, d) != g || Slide(g, n, Opposite(d)) != g
  {
    var line := Lines(g, n, d)[i];
    CountPositive(line, t);
    SquashMovesIntoGap(line, n);
    var forward := if Reversed(d) then Opposite(d) else d;
    assert Lines(g, n, Opposite(d)) == Lines(g, n, d);
    if Squash(line, false, n) != line {
      LineChangeMovesBoard(g, n, forward, i);
    } else {
      LineChangeMovesBoard(g, n, Opposite(forward), i);
    }
  }

  function Opposite(d: Dir): Dir {
    match d
    case Left => Right
    case Right => Left
    case Up => Down
    case Down => Up
  }

  /**
   * When `canMove` is true and the board holds a tile, some direction changes the board:
   * `canMove` is then exactly the test for a possible move.
   */
  lemma MovableBoardMoves(g: Grid, n: nat)
    requires IsGrid(g, n) && CanMoveSpec(g, n) && HasTile(g, n)
    ensures exists d :: Slide(g, n, d) != g
  {
    var tr, tc :| 0 <= tr < n && 0 <= tc < n && g[tr][tc] != 0.0;
    if HasEmptyCell(g, n) {
      var zr, zc :| 0 <= zr < n && 0 <= zc < n && g[zr][zc] == 0.0;
      if exists c :: 0 <= c < n && g[zr][c] != 0.0 {
        var c :| 0 <= c < n && g[zr][c] != 0.0;
        GapLineMoves(g, n, Left, zr, zc, c);
      } else {
        assert g[zr][tc] == 0.0;
        assert Lines(g, n, Up)[tc][zr] == 0.0 && Lines(g, n, Up)[tc][tr] != 0.0;
        GapLineMoves(g, n, Up, tc, zr, tr);
      }
    } else {
      var r, c :| 0 <= r < n && 0 <= c < n && EqualNeighbourAt(g, n, r, c);
      assert g[r][c] != 0.0;
      if c + 1 < n && g[r][c + 1] == g[r][c] {
        SquashMergesNeighbours(g[r], n);
        LineChangeMovesBoard(g, n, Left, r);
      } else {
        var col := Lines(g, n, Up)[c];
        assert col[r] == col[r + 1] != 0.0;
        SquashMergesNeighbours(col, n);
        LineChangeMovesBoard(g, n, Up, c);
      }
    }
  }

  lemma {:induction false} CompactOfZeros(s: seq<real>)
    requires forall i :: 0 <= i < |s| ==> s[i] == 0.0
    ensures Compact(s) == []
  {
    if s != [] {
      CompactOfZeros(s[1..]);
    }
  }

  /** The forward squash of an empty line is the empty line. */
  lemma ForwardOfZeros(s: seq<real>, n: nat)
    requires |s| == n && forall j :: 0 <= j < n ==> s[j] == 0.0
    ensures Forward(s, n) == Zeros(n)
  {
    CompactOfZeros(s);
    assert MergeRun(Compact(s)) == [];
    if n > 0 {
      assert PadTo([], n) == [] + Zeros(n);
    }
  }

  /** An empty line stays empty in both directions. */
  lemma ZeroLineFixed(line: seq<real>, reverse: bool, n: nat)
    requires |line| == n && forall j :: 0 <= j < n ==> line[j] == 0.0
    ensures Squash(line, reverse, n) == line
  {
    assert line == Zeros(n);
    if reverse {
      ForwardOfZeros(Reverse(line), n);
      assert Reverse(Zeros(n)) == Zeros(n);
    } else {
      ForwardOfZeros(line, n);
    }
  }

  /**
   * The exception: on an empty board of positive size `canMove` is true, yet no direction
   * changes anything (the constructor always places tiles, so only a restored or hand-built
   * state is empty).
   */
  lemma EmptyBoardNeverMoves(g: Grid, n: nat, d: Dir)
    requires IsGrid(g, n) && n > 0 && !HasTile(g, n)
    ensures CanMoveSpec(g, n)
    ensures Slide(g, n, d) == g
  {
    assert g[0][0] == 0.0;
    var ls := Lines(g, n, d);
    forall i | 0 <= i < n ensures Squash(ls[i], Reversed(d), n) == ls[i] {
      var line := ls[i];
      forall j | 0 <= j < n ensures line[j] == 0.0 {
        if Horizontal(d) { assert line[j] == g[i][j]; } else { assert line[j] == g[j][i]; }
      }
      ZeroLineFixed(line, Reversed(d), n);
    }
    assert SlideLines(ls, Reversed(d), n) == ls;
    if !Horizontal(d) {
      TransposeTranspose(g, n);
    }
  }

  // ---------------------------------------------------------------- spawning a tile

  type Cell = (nat, nat)

  /** The empty cells among the first `c` cells of row `r`, left to right. */
  function EmptyInRow(g: Grid, r: nat, c: nat): seq<Cell>
    requires r < |g| && c <= |g[r]|
  {
    if c == 0 then []
    else EmptyInRow(g, r, c - 1) + (if g[r][c - 1] == 0.0 then [(r, c - 1)] else [])
  }

  /** The empty cells of the first `k` rows in row-major order. */
  function EmptyUpTo(g: Grid, n: nat, k: nat): seq<Cell>
    requires IsGrid(g, n) && k <= n
  {
    if k == 0 then [] else EmptyUpTo(g, n, k - 1) + EmptyInRow(g, k - 1, n)
  }

  /** The list `addRandomTile` collects: every empty cell, row by row, left to right. */
  function EmptyCells(g: Grid, n: nat): seq<Cell>
    requires IsGrid(g, n)
  {
    EmptyUpTo(g, n, n)
  }

  lemma {:induction false} EmptyInRowExact(g: Grid, r: nat, c: nat)
    requires r < |g| && c <= |g[r]|
    ensures forall p :: p in EmptyInRow(g, r, c) <==> p.0 == r && p.1 < c && g[r][p.1] == 0.0
  {
    if c > 0 {
      EmptyInRowExact(g, r, c - 1);
    }
  }

  lemma {:induction false} EmptyUpToExact(g: Grid, n: nat, k: nat)
    requires IsGrid(g, n) && k <= n
    ensures forall p :: p in EmptyUpTo(g, n, k) <==> p.0 < k && p.1 < n && g[p.0][p.1] == 0.0
  {
    if k > 0 {
      EmptyUpToExact(g, n, k - 1);
      EmptyInRowExact(g, k - 1, n);
    }
  }

  /** The collected list holds exactly the empty cells; it is empty exactly on a full board. */
  lemma EmptyCellsExact(g: Grid, n: nat)
    requires IsGrid(g, n)
    ensures forall p :: p in EmptyCells(g, n) <==> p.0 < n && p.1 < n && g[p.0][p.1] == 0.0
    ensures EmptyCells(g, n) == [] <==> !HasEmptyCell(g, n)
  {
    EmptyUpToExact(g, n, n);
    if HasEmptyCell(g, n) {
      var r, c :| 0 <= r < n && 0 <= c < n && g[r][c] == 0.0;
      assert (r, c) in EmptyCells(g, n);
    }
    if EmptyCells(g, n) != [] {
      var p := EmptyCells(g, n)[0];
      assert p in EmptyCells(g, n);
      assert g[p.0][p.1] == 0.0;
    }
  }

  /** `Math.floor(rng() * empty.length)`: a slot of the list for a draw in [0, 1). */
  function SpawnSlot(x: real, k: nat): (i: int)
    ensures 0.0 <= x < 1.0 && k > 0 ==> 0 <= i < k
  {
    var y := k as real;
    var scaled := x * y;
    if 0.0 <= x < 1.0 && k > 0 then
      ScaledBelow(x, y);
      assert 0.0 <= scaled < y;
      assert scaled.Floor as real <= scaled < scaled.Floor as real + 1.0;
      scaled.Floor
    else scaled.Floor
  }

  lemma ScaledBelow(x: real, y: real)
    requires 0.0 <= x < 1.0 && y > 0.0
    ensures 0.0 <= x * y < y
  {
    var gap := 1.0 - x;
    assert gap * y > 0.0;
    assert x * y + gap * y == (x + gap) * y;
  }

  /** `grid[r][c] = v`. */
  function Place(g: Grid, r: nat, c: nat, v: real): (h: Grid)
    requires r < |g| && c < |g[r]|
    ensures |h| == |g| && forall i :: 0 <= i < |g| ==> |h[i]| == |g[i]|
    ensures h[r][c] == v
    ensures forall i, j :: 0 <= i < |g| && 0 <= j < |g[i]| && (i, j) != (r, c) ==> h[i][j] == g[i][j]
  {
    g[r := g[r][c := v]]
  }

  /**
   * The board after `addRandomTile` placed `v` with the cell draw `x`, on a board with an empty
   * cell: one cell that was empty holds `v`, every other cell is unchanged.
   */
  function AddTile(g: Grid, n: nat, x: real, v: real): (h: Grid)
    requires IsGrid(g, n) && EmptyCells(g, n) != [] && 0.0 <= x < 1.0
    ensures IsGrid(h, n)
    ensures exists r, c :: 0 <= r < n && 0 <= c < n && g[r][c] == 0.0 && h == Place(g, r, c, v)
  {
    var cells := EmptyCells(g, n);
    var p := cells[SpawnSlot(x, |cells|)];
    EmptyCellsExact(g, n);
    assert p in cells;
    Place(g, p.0, p.1, v)
  }

  lemma CountUpdate(s: seq<real>, i: nat, v: real)
    requires i < |s|
    ensures Count(s[i := v]) + (if s[i] != 0.0 then 1 else 0) == Count(s) + (if v != 0.0 then 1 else 0)
  {
    var pre, post := s[..i], s[i + 1..];
    assert s == pre + [s[i]] + post;
    assert s[i := v] == pre + [v] + post;
    CompactAppend(pre + [s[i]], post);
    CompactAppend(pre, [s[i]]);
    CompactAppend(pre + [v], post);
    CompactAppend(pre, [v]);
    assert [s[i]][1..] == [] && [v][1..] == [];
  }

  lemma {:induction false} SumCountsUpdate(ls: Grid, i: nat, line: seq<real>)
    requires i < |ls|
    ensures SumCounts(ls[i := line]) + Count(ls[i]) == SumCounts(ls) + Count(line)
  {
    var k := |ls| - 1;
    if i == k {
      assert ls[i := line][..k] == ls[..k];
    } else {
      SumCountsUpdate(ls[..k], i, line);
      assert ls[i := line][..k] == ls[..k][i := line];
    }
  }

  /** A board of zeros holds no tile. */
  lemma {:induction false} ZeroBoardCount(g: Grid)
    requires forall r, c :: 0 <= r < |g| && 0 <= c < |g[r]| ==> g[r][c] == 0.0
    ensures GridCount(g) == 0
  {
    if g != [] {
      var k := |g| - 1;
      assert forall r, c :: 0 <= r < k && 0 <= c < |g[..k][r]| ==> g[..k][r][c] == g[r][c];
      ZeroBoardCount(g[..k]);
      CompactOfZeros(g[k]);
    }
  }

  /** Placing a tile on an empty cell adds one tile to the board. */
  lemma PlaceCount(g: Grid, r: nat, c: nat, v: real)
    requires r < |g| && c < |g[r]| && g[r][c] == 0.0 && v != 0.0
    ensures GridCount(Place(g, r, c, v)) == GridCount(g) + 1
  {
    CountUpdate(g[r], c, v);
    SumCountsUpdate(g, r, g[r][c := v]);
  }
}
