/**
 * The loops of `Game2048` (core/game2048.esm.js and its copy miniprogram/core/game2048.cjs.js,
 * which share them line for line), each proved to compute the function of the board modules
 * that specifies it. They work on the values they are given; the game classes hold the state
 * and call them.
 */
module Engine {
  import opened Wrappers
  import opened Json
  import opened Line
  import opened Board
  import opened Weights

  /**
   * `_squashMerge(line, reverse)` on a board of size `size`: the squashed line, and what the
   * merges add to the score.
   */
  method SquashLine(line: seq<real>, reverse: bool, size: nat) returns (out: seq<real>, gain: real)
    ensures out == Squash(line, reverse, size)
    ensures gain == SquashGain(line, reverse)
  {
    var arr := if reverse then Reverse(line) else line;
    var a := Compact(arr);
    var merged;
    merged, gain := MergeScan(a);
    var padded := PadZeros(merged, size);
    out := if reverse then Reverse(padded) else padded;
  }

  /** The merging loop of `_squashMerge` over the compacted line. */
  method MergeScan(a: seq<real>) returns (acc: seq<real>, gain: real)
    ensures acc == MergeRun(a) && gain == RunGain(a)
  {
    acc := [];
    gain := 0.0;
    var i := 0;
    while i < |a|
      invariant 0 <= i <= |a|
      invariant acc + MergeRun(a[i..]) == MergeRun(a)
      invariant gain + RunGain(a[i..]) == RunGain(a)
    {
      if i < |a| - 1 && a[i] == a[i + 1] {
        var v := a[i] * 2.0;
        assert a[i..][2..] == a[i + 2..];
        acc := acc + [v];
        gain := gain + v;
        i := i + 2;
      } else {
        assert a[i..][1..] == a[i + 1..];
        if i == |a| - 1 {
          assert a[i..] == [a[i]] && a[i + 1..] == [];
        }
        acc := acc + [a[i]];
        i := i + 1;
      }
    }
    assert a[i..] == [];
    assert acc + [] == acc;
  }

  /** `while (out.length < this.size) out.push(0)`. */
  method PadZeros(m: seq<real>, size: nat) returns (acc: seq<real>)
    ensures acc == PadTo(m, size)
  {
    acc := m;
    while |acc| < size
      invariant |m| <= |acc| && acc[..|m|] == m
      invariant forall j :: |m| <= j < |acc| ==> acc[j] == 0.0
      invariant |acc| > |m| ==> |acc| <= size
      decreases size - |acc|
    {
      acc := acc + [0.0];
    }
    if |m| < size {
      assert acc == m + Zeros(size - |m|);
    } else {
      assert acc == m;
    }
  }

  /** `_arrEq(a, b)`: same length and the same element at every index. */
  method ArrEq(a: seq<real>, b: seq<real>) returns (eq: bool)
    ensures eq <==> a == b
  {
    if |a| != |b| {
      return false;
    }
    var i := 0;
    while i < |a|
      invariant 0 <= i <= |a|
      invariant a[..i] == b[..i]
    {
      if a[i] != b[i] {
        return false;
      }
      assert a[..i + 1] == a[..i] + [a[i]] && b[..i + 1] == b[..i] + [b[i]];
      i := i + 1;
    }
    assert a == a[..i] && b == b[..i];
    return true;
  }

  /** `canMove()`: an empty cell anywhere, or a cell equal to its lower or right neighbour. */
  method CanMoveOn(g: Grid, n: nat) returns (b: bool)
    requires IsGrid(g, n)
    ensures b == CanMoveSpec(g, n)
  {
    var r := 0;
    while r < n
      invariant 0 <= r <= n
      invariant forall i, j :: 0 <= i < r && 0 <= j < n ==> g[i][j] != 0.0
    {
      var c := 0;
      while c < n
        invariant 0 <= c <= n
        invariant forall j :: 0 <= j < c ==> g[r][j] != 0.0
      {
        if g[r][c] == 0.0 {
          return true;
        }
        c := c + 1;
      }
      r := r + 1;
    }
    r := 0;
    while r < n
      invariant 0 <= r <= n
      invariant forall i, j :: 0 <= i < r && 0 <= j < n ==> !EqualNeighbourAt(g, n, i, j)
    {
      var c := 0;
      while c < n
        invariant 0 <= c <= n
        invariant forall j :: 0 <= j < c ==> !EqualNeighbourAt(g, n, r, j)
      {
        var v := g[r][c];
        if r + 1 < n && g[r + 1][c] == v {
          assert EqualNeighbourAt(g, n, r, c);
          return true;
        }
        if c + 1 < n && g[r][c + 1] == v {
          assert EqualNeighbourAt(g, n, r, c);
          return true;
        }
        c := c + 1;
      }
      r := r + 1;
    }
    return false;
  }

  /** The loops of `addRandomTile` that collect the empty cells, row by row. */
  method CollectEmpty(g: Grid, n: nat) returns (empty: seq<Cell>)
    requires IsGrid(g, n)
    ensures empty == EmptyCells(g, n)
  {
    empty := [];
    var r := 0;
    while r < n
      invariant 0 <= r <= n
      invariant empty == EmptyUpTo(g, n, r)
    {
      var c := 0;
      while c < n
        invariant 0 <= c <= n
        invariant empty == EmptyUpTo(g, n, r) + EmptyInRow(g, r, c)
      {
        if g[r][c] == 0.0 {
          empty := empty + [(r, c)];
        }
        c := c + 1;
      }
      r := r + 1;
    }
  }

  function Shift(o: Option<nat>, k: nat): Option<nat> {
    match o
    case Some(i) => Some(i + k)
    case None => None
  }

  /**
   * `_weightedRandom(weights)` once the generator has returned `x`: sum the weights, scale
   * `x` by the sum, subtract weights until the remainder is `<= 0`, else fall back to the
   * first entry.
   */
  method PickFrom(t: WeightTable, x: real) returns (v: real)
    requires t != []
    ensures v == WeightedPick(t, x)
  {
    var sum := 0.0;
    var i := 0;
    while i < |t|
      invariant 0 <= i <= |t|
      invariant sum == Total(t[..i])
    {
      assert t[..i + 1][..i] == t[..i];
      sum := sum + t[i].1;
      i := i + 1;
    }
    assert t[..|t|] == t;
    var rnd := x * sum;
    assert t[0..] == t;
    assert Scaled(t, x) == rnd;
    assert Shift(Scan(t, rnd), 0) == Scan(t, rnd);
    i := 0;
    while i < |t|
      invariant 0 <= i <= |t|
      invariant Scan(t, Scaled(t, x)) == Shift(Scan(t[i..], rnd), i)
    {
      assert t[i..][1..] == t[i + 1..];
      rnd := rnd - t[i].1;
      if rnd <= 0.0 {
        return t[i].0;
      }
      i := i + 1;
    }
    assert t[i..] == [];
    return t[0].0;
  }

  /** One row of the `left`/`right` branch: squash it, write it back when `_arrEq` finds it changed. */
  method SlideRow(h: Grid, n: nat, r: nat, reverse: bool) returns (h': Grid, changed: bool, lineGain: real)
    requires r < |h|
    ensures h' == h[r := Squash(h[r], reverse, n)]
    ensures changed <==> Squash(h[r], reverse, n) != h[r]
    ensures lineGain == SquashGain(h[r], reverse)
  {
    var merged;
    merged, lineGain := SquashLine(h[r], reverse, n);
    var same := ArrEq(merged, h[r]);
    h', changed := h, false;
    if !same {
      h', changed := h[r := merged], true;
    }
  }

  /**
   * The `left`/`right` branch of `move`: squash each row, write it back when `_arrEq` finds it
   * changed. Returns the new rows, whether any row changed, and the score the merges add.
   */
  method SlideRows(g: Grid, n: nat, reverse: bool) returns (h: Grid, moved: bool, gain: real)
    requires IsGrid(g, n)
    ensures h == SlideLines(g, reverse, n)
    ensures moved <==> exists i :: 0 <= i < n && Squash(g[i], reverse, n) != g[i]
    ensures gain == LinesGain(g, reverse)
  {
    ghost var out := SlideLines(g, reverse, n);
    h, moved, gain := g, false, 0.0;
    var r := 0;
    while r < n
      invariant 0 <= r <= n && h == out[..r] + g[r..]
      invariant moved == LinesChanged(out, g, r)
      invariant gain == LinesGain(g[..r], reverse)
    {
      h, moved, gain := RowsTurn(g, n, reverse, out, r, h, moved, gain);
      r := r + 1;
    }
    LinesChangedExists(out, g, n);
    assert g[..n] == g;
    assert h == out;
  }

  /** One turn of the row loop: row `r` is squashed, and the running results extend to `r + 1`. */
  method RowsTurn(g: Grid, n: nat, reverse: bool, ghost out: Grid, r: nat, h: Grid, moved: bool, gain: real)
    returns (h': Grid, moved': bool, gain': real)
    requires IsGrid(g, n) && out == SlideLines(g, reverse, n) && r < n
    requires h == out[..r] + g[r..] && moved == LinesChanged(out, g, r) && gain == LinesGain(g[..r], reverse)
    ensures h' == out[..r + 1] + g[r + 1..]
    ensures moved' == LinesChanged(out, g, r + 1)
    ensures gain' == LinesGain(g[..r + 1], reverse)
  {
    RowsStep(g, out, n, r, reverse);
    var changed, lineGain;
    h', changed, lineGain := SlideRow(h, n, r, reverse);
    moved', gain' := moved || changed, gain + lineGain;
  }

  /** Some of the first `r` lines of `out` differ from those of `g`. */
  ghost predicate LinesChanged(out: Grid, g: Grid, r: nat)
    requires r <= |out| && r <= |g|
  {
    r > 0 && (LinesChanged(out, g, r - 1) || out[r - 1] != g[r - 1])
  }

  lemma {:induction false} LinesChangedExists(out: Grid, g: Grid, r: nat)
    requires r <= |out| && r <= |g|
    ensures LinesChanged(out, g, r) <==> exists i :: 0 <= i < r && out[i] != g[i]
  {
    if r > 0 {
      LinesChangedExists(out, g, r - 1);
    }
  }

  /** What one turn of the row loop needs: row `r` becomes its squash, and the running facts extend to `r + 1`. */
  lemma RowsStep(g: Grid, out: Grid, n: nat, r: nat, reverse: bool)
    requires IsGrid(g, n) && out == SlideLines(g, reverse, n) && r < n
    ensures var h := out[..r] + g[r..];
      h[r] == g[r] &&
      h[r := Squash(h[r], reverse, n)] == out[..r + 1] + g[r + 1..] &&
      ((Squash(h[r], reverse, n) != h[r]) == (out[r] != g[r])) &&
      LinesGain(g[..r + 1], reverse) == LinesGain(g[..r], reverse) + SquashGain(h[r], reverse)
  {
    var h := out[..r] + g[r..];
    assert h[r] == g[r];
    assert h[r := out[r]] == out[..r + 1] + g[r + 1..];
    LinesGainPrefix(g, reverse, r);
  }

  /** `for (let r = 0; r < this.size; r++) col.push(this.grid[r][c])`. */
  method ReadColumn(h: Grid, n: nat, c: nat) returns (col: seq<real>)
    requires IsGrid(h, n) && c < n
    ensures col == Column(h, c)
  {
    col := [];
    var r := 0;
    while r < n
      invariant 0 <= r <= n && |col| == r
      invariant forall k :: 0 <= k < r ==> col[k] == h[k][c]
    {
      col := col + [h[r][c]];
      r := r + 1;
    }
  }

  /**
   * Writing a squashed column back: every cell of column `c` takes its new value, and `moved`
   * becomes true when one of them differs from the old one.
   */
  method WriteColumn(h: Grid, n: nat, c: nat, merged: seq<real>, moved: bool)
    returns (h': Grid, moved': bool)
    requires IsGrid(h, n) && c < n && |merged| == n
    ensures IsGrid(h', n)
    ensures forall r, j {:trigger h'[r][j]} :: 0 <= r < n && 0 <= j < n ==>
      h'[r][j] == if j == c then merged[r] else h[r][j]
    ensures moved' <==> moved || merged != Column(h, c)
  {
    h', moved' := h, moved;
    var r := 0;
    while r < n
      invariant 0 <= r <= n && IsGrid(h', n)
      invariant forall i, j {:trigger h'[i][j]} :: 0 <= i < n && 0 <= j < n ==>
        h'[i][j] == if j == c && i < r then merged[i] else h[i][j]
      invariant moved' <==> moved || exists k :: 0 <= k < r && merged[k] != h[k][c]
    {
      if h'[r][c] != merged[r] {
        moved' := true;
      }
      h' := h'[r := h'[r][c := merged[r]]];
      r := r + 1;
    }
    assert merged != Column(h, c) <==> exists k :: 0 <= k < n && merged[k] != h[k][c];
  }

  /** The first `c` columns of `h` are the squashed columns `out`, the rest still those of `g`. */
  ghost predicate ColumnsDone(h: Grid, g: Grid, out: Grid, n: nat, c: nat)
    requires IsGrid(h, n) && IsGrid(g, n) && IsGrid(out, n) && c <= n
  {
    forall r, j {:trigger h[r][j]} :: 0 <= r < n && 0 <= j < n ==> h[r][j] == if j < c then out[j][r] else g[r][j]
  }

  lemma ColumnsDoneStep(h: Grid, h': Grid, g: Grid, out: Grid, n: nat, c: nat)
    requires IsGrid(h, n) && IsGrid(h', n) && IsGrid(g, n) && IsGrid(out, n) && c < n
    requires ColumnsDone(h, g, out, n, c)
    requires forall r, j {:trigger h'[r][j]} :: 0 <= r < n && 0 <= j < n ==> h'[r][j] == if j == c then out[c][r] else h[r][j]
    ensures ColumnsDone(h', g, out, n, c + 1)
  {
  }

  lemma ColumnOfDone(h: Grid, g: Grid, out: Grid, n: nat, c: nat)
    requires IsGrid(h, n) && IsGrid(g, n) && IsGrid(out, n) && c < n
    requires ColumnsDone(h, g, out, n, c)
    ensures Column(h, c) == Transpose(g, n)[c]
  {
    forall r | 0 <= r < n ensures Column(h, c)[r] == Transpose(g, n)[c][r] {
      assert h[r][c] == g[r][c];
    }
  }

  /** One column of the `up`/`down` branch: read it, squash it, write it back. */
  method SlideColumn(h: Grid, n: nat, c: nat, reverse: bool, moved: bool)
    returns (h': Grid, moved': bool, gain: real)
    requires IsGrid(h, n) && c < n
    ensures IsGrid(h', n)
    ensures forall r, j {:trigger h'[r][j]} :: 0 <= r < n && 0 <= j < n ==>
      h'[r][j] == if j == c then Squash(Column(h, c), reverse, n)[r] else h[r][j]
    ensures moved' <==> moved || Squash(Column(h, c), reverse, n) != Column(h, c)
    ensures gain == SquashGain(Column(h, c), reverse)
  {
    var col := ReadColumn(h, n, c);
    var merged;
    merged, gain := SquashLine(col, reverse, n);
    h', moved' := WriteColumn(h, n, c, merged, moved);
  }

  lemma ColumnsFinished(h: Grid, g: Grid, out: Grid, n: nat)
    requires IsGrid(h, n) && IsGrid(g, n) && IsGrid(out, n)
    requires ColumnsDone(h, g, out, n, n)
    ensures h == Transpose(out, n)
  {
    forall r | 0 <= r < n ensures h[r] == Transpose(out, n)[r] {
      assert forall j :: 0 <= j < n ==> h[r][j] == out[j][r];
    }
  }

  /** One turn of the column loop: column `c` is squashed, and the running results extend to `c + 1`. */
  method ColumnsTurn(g: Grid, n: nat, reverse: bool, ghost cols: Grid, ghost out: Grid, c: nat,
                     h: Grid, moved: bool, gain: real)
    returns (h': Grid, moved': bool, gain': real)
    requires IsGrid(g, n) && cols == Transpose(g, n) && out == SlideLines(cols, reverse, n) && c < n
    requires IsGrid(h, n) && ColumnsDone(h, g, out, n, c)
    requires moved == LinesChanged(out, cols, c) && gain == LinesGain(cols[..c], reverse)
    ensures IsGrid(h', n) && ColumnsDone(h', g, out, n, c + 1)
    ensures moved' == LinesChanged(out, cols, c + 1)
    ensures gain' == LinesGain(cols[..c + 1], reverse)
  {
    ColumnOfDone(h, g, out, n, c);
    var lineGain;
    h', moved', lineGain := SlideColumn(h, n, c, reverse, moved);
    ColumnsDoneStep(h, h', g, out, n, c);
    LinesGainPrefix(cols, reverse, c);
    gain' := gain + lineGain;
  }

  /**
   * The `up`/`down` branch of `move`: read each column, squash it, write it back cell by cell.
   * Returns the new board, whether any cell changed, and the score the merges add.
   */
  method SlideColumns(g: Grid, n: nat, reverse: bool) returns (h: Grid, moved: bool, gain: real)
    requires IsGrid(g, n)
    ensures h == Transpose(SlideLines(Transpose(g, n), reverse, n), n)
    ensures moved <==>
      (exists i :: 0 <= i < n && Squash(Transpose(g, n)[i], reverse, n) != Transpose(g, n)[i])
    ensures gain == LinesGain(Transpose(g, n), reverse)
  {
    ghost var cols := Transpose(g, n);
    ghost var out := SlideLines(cols, reverse, n);
    assert IsGrid(out, n);
    h, moved, gain := g, false, 0.0;
    var c := 0;
    while c < n
      invariant 0 <= c <= n && IsGrid(h, n)
      invariant ColumnsDone(h, g, out, n, c)
      invariant moved == LinesChanged(out, cols, c)
      invariant gain == LinesGain(cols[..c], reverse)
    {
      h, moved, gain := ColumnsTurn(g, n, reverse, cols, out, c, h, moved, gain);
      c := c + 1;
    }
    LinesChangedExists(out, cols, n);
    assert cols[..n] == cols;
    ColumnsFinished(h, g, out, n);
  }

  /**
   * The squashes of `move(d)` before any spawn: the board they produce, whether it differs
   * from `g`, and what they add to the score.
   */
  method SlideBoard(g: Grid, n: nat, d: Dir) returns (h: Grid, moved: bool, gain: real)
    requires IsGrid(g, n)
    ensures h == Slide(g, n, d)
    ensures moved <==> h != g
    ensures gain == Gain(g, n, d)
  {
    if Horizontal(d) {
      h, moved, gain := SlideRows(g, n, Reversed(d));
    } else {
      h, moved, gain := SlideColumns(g, n, Reversed(d));
    }
    SlideChanged(g, n, d);
  }

  // ---------------------------------------------------------------- restoring a board

  /** `Array.isArray(x) ? x : []`. */
  function ArrayOrEmpty(j: Json): (a: Json)
    ensures a.JArr?
  {
    if j.JArr? then j else JArr([])
  }

  /** `Number.isFinite(Number(x)) ? Number(x) : 0`. */
  function CellValue(j: Json): real {
    ToNumber(j).GetOr(0.0)
  }

  /** One restored row: `size` cells read from `rowSrc`, missing or non-numeric ones as 0. */
  function RestoredRow(rowSrc: Json, n: nat): (row: seq<real>)
    ensures |row| == n
  {
    seq(n, c requires 0 <= c < n => CellValue(Index(rowSrc, c)))
  }

  /**
   * The board `restoreState` (and `LevelManager.fromJSON`) builds from `state.grid`: always
   * `size × size`; a missing or non-array grid or row counts as empty.
   */
  function RestoredGrid(gridSrc: Json, n: nat): (g: Grid)
    ensures IsGrid(g, n)
  {
    seq(n, r requires 0 <= r < n => RestoredRow(ArrayOrEmpty(Index(ArrayOrEmpty(gridSrc), r)), n))
  }

  /** The nested loops that rebuild the board from `state.grid`. */
  method RestoreGridFrom(gridSrc: Json, n: nat) returns (g: Grid)
    ensures g == RestoredGrid(gridSrc, n)
  {
    var src := ArrayOrEmpty(gridSrc);
    g := [];
    var r := 0;
    while r < n
      invariant 0 <= r <= n && |g| == r
      invariant forall i :: 0 <= i < r ==> g[i] == RestoredGrid(gridSrc, n)[i]
    {
      var rowSrc := ArrayOrEmpty(Index(src, r));
      var row := [];
      var c := 0;
      while c < n
        invariant 0 <= c <= n && |row| == c
        invariant forall j :: 0 <= j < c ==> row[j] == CellValue(Index(rowSrc, j))
      {
        var val := ToNumber(Index(rowSrc, c));
        row := row + [if val.Some? then val.value else 0.0];
        c := c + 1;
      }
      g := g + [row];
      r := r + 1;
    }
  }

  /** A board as `JSON.parse(JSON.stringify(grid))` gives it back. */
  function GridToJson(g: Grid): Json {
    JArr(seq(|g|, r requires 0 <= r < |g| => JArr(seq(|g[r]|, c requires 0 <= c < |g[r]| => JNum(g[r][c])))))
  }

  /** Restoring a board from its own JSON form gives the board back. */
  lemma RestoreGridRoundTrip(g: Grid, n: nat)
    requires IsGrid(g, n)
    ensures RestoredGrid(GridToJson(g), n) == g
  {
    var h := RestoredGrid(GridToJson(g), n);
    forall r | 0 <= r < n ensures h[r] == g[r] {
      forall c | 0 <= c < n ensures h[r][c] == g[r][c] {
        assert Index(ArrayOrEmpty(GridToJson(g)), r) == JArr(seq(n, c requires 0 <= c < n => JNum(g[r][c])));
      }
    }
  }

  /** Without an array to read from, the restored board is empty. */
  lemma RestoreFromNonArray(gridSrc: Json, n: nat)
    requires !gridSrc.JArr?
    ensures RestoredGrid(gridSrc, n) == EmptyGrid(n)
  {
    var h := RestoredGrid(gridSrc, n);
    forall r | 0 <= r < n ensures h[r] == Zeros(n) {
      assert Index(ArrayOrEmpty(gridSrc), r) == JUndefined;
    }
  }
}
