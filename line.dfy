/**
 * One row or column of the board and what `_squashMerge` does to it
 * (core/game2048.esm.js, miniprogram/core/game2048.cjs.js): drop the zeros, merge equal
 * neighbours left to right with each tile merging at most once, pad with zeros to the board
 * size; for `right` and `down` the line is reversed before and after.
 */
module Line {

  /** `arr.filter(v => v !== 0)`. */
  function Compact(a: seq<real>): (c: seq<real>)
    ensures |c| <= |a|
    ensures forall i :: 0 <= i < |c| ==> c[i] != 0.0
  {
    if a == [] then [] else (if a[0] != 0.0 then [a[0]] else []) + Compact(a[1..])
  }

  /**
   * The scan over the compacted line: an equal pair `v, v` becomes `2 * v` and the scan skips
   * the partner, so the new tile is not compared again.
   */
  function MergeRun(a: seq<real>): (out: seq<real>)
    ensures |out| <= |a|
  {
    if |a| <= 1 then a
    else if a[0] == a[1] then [2.0 * a[0]] + MergeRun(a[2..])
    else [a[0]] + MergeRun(a[1..])
  }

  /** What the scan adds to the score: the value of every tile it produces by merging. */
  function RunGain(a: seq<real>): real {
    if |a| <= 1 then 0.0
    else if a[0] == a[1] then 2.0 * a[0] + RunGain(a[2..])
    else RunGain(a[1..])
  }

  /** How many merges the scan performs. */
  function RunMerges(a: seq<real>): nat {
    if |a| <= 1 then 0
    else if a[0] == a[1] then 1 + RunMerges(a[2..])
    else RunMerges(a[1..])
  }

  function Zeros(k: nat): (z: seq<real>)
    ensures |z| == k && forall i :: 0 <= i < k ==> z[i] == 0.0
  {
    seq(k, i => 0.0)
  }

  /** `while (out.length < size) out.push(0)`. */
  function PadTo(out: seq<real>, n: nat): seq<real> {
    if |out| < n then out + Zeros(n - |out|) else out
  }

  function Reverse(s: seq<real>): (r: seq<real>)
    ensures |r| == |s|
  {
    seq(|s|, i requires 0 <= i < |s| => s[|s| - 1 - i])
  }

  /** The left-to-right squash of one line. */
  function Forward(line: seq<real>, n: nat): (out: seq<real>)
    ensures |line| <= n ==> |out| == n
  {
    PadTo(MergeRun(Compact(line)), n)
  }

  /** The line in the order `_squashMerge` scans it. */
  function Oriented(line: seq<real>, reverse: bool): seq<real> {
    if reverse then Reverse(line) else line
  }

  /** The line `_squashMerge(line, reverse)` returns on a board of size `n`. */
  function Squash(line: seq<real>, reverse: bool, n: nat): (out: seq<real>)
    ensures |line| <= n ==> |out| == n
  {
    if reverse then Reverse(Forward(Reverse(line), n)) else Forward(line, n)
  }

  /** What `_squashMerge(line, reverse)` adds to the score. */
  function SquashGain(line: seq<real>, reverse: bool): real {
    RunGain(Compact(Oriented(line, reverse)))
  }

  /** How many merges `_squashMerge(line, reverse)` performs. */
  function SquashMerges(line: seq<real>, reverse: bool): nat {
    RunMerges(Compact(Oriented(line, reverse)))
  }

  /** The number of nonzero cells. */
  function Count(s: seq<real>): nat {
    |Compact(s)|
  }

  function Sum(s: seq<real>): real {
    if s == [] then 0.0 else s[0] + Sum(s[1..])
  }

  predicate HasZero(s: seq<real>) {
    exists i :: 0 <= i < |s| && s[i] == 0.0
  }

  /** The line holds two equal neighbours. */
  predicate HasEqualNeighbours(s: seq<real>) {
    exists i :: 0 <= i < |s| - 1 && s[i] == s[i + 1]
  }

  // ---------------------------------------------------------------- sequence facts

  lemma {:induction false} CompactAppend(a: seq<real>, b: seq<real>)
    ensures Compact(a + b) == Compact(a) + Compact(b)
  {
    if a != [] {
      assert (a + b)[0] == a[0] && (a + b)[1..] == a[1..] + b;
      CompactAppend(a[1..], b);
      calc {
        Compact(a + b);
        (if a[0] != 0.0 then [a[0]] else []) + Compact(a[1..] + b);
        (if a[0] != 0.0 then [a[0]] else []) + (Compact(a[1..]) + Compact(b));
      }
    } else {
      assert a + b == b;
    }
  }

  lemma {:induction false} SumAppend(a: seq<real>, b: seq<real>)
    ensures Sum(a + b) == Sum(a) + Sum(b)
  {
    if a != [] {
      assert (a + b)[0] == a[0] && (a + b)[1..] == a[1..] + b;
      SumAppend(a[1..], b);
    } else {
      assert a + b == b;
    }
  }

  lemma {:induction false} ZerosFacts(k: nat)
    ensures Compact(Zeros(k)) == [] && Sum(Zeros(k)) == 0.0
  {
    if k > 0 {
      assert Zeros(k)[1..] == Zeros(k - 1);
      ZerosFacts(k - 1);
    }
  }

  lemma {:induction false} CompactOfNonZero(a: seq<real>)
    requires forall i :: 0 <= i < |a| ==> a[i] != 0.0
    ensures Compact(a) == a
  {
    if a != [] {
      CompactOfNonZero(a[1..]);
    }
  }

  lemma {:induction false} CompactSum(a: seq<real>)
    ensures Sum(Compact(a)) == Sum(a)
  {
    if a != [] {
      CompactSum(a[1..]);
      SumAppend(if a[0] != 0.0 then [a[0]] else [], Compact(a[1..]));
    }
  }

  /** A line has no zero exactly when all its cells count. */
  lemma {:induction false} CountFull(s: seq<real>)
    ensures Count(s) == |s| <==> !HasZero(s)
  {
    if s != [] {
      CountFull(s[1..]);
      if s[0] == 0.0 {
        assert Count(s) <= |s[1..]|;
      } else {
        assert HasZero(s) <==> HasZero(s[1..]) by {
          if HasZero(s) {
            var i :| 0 <= i < |s| && s[i] == 0.0;
            assert s[1..][i - 1] == 0.0;
          }
          if HasZero(s[1..]) {
            var i :| 0 <= i < |s[1..]| && s[1..][i] == 0.0;
            assert s[i + 1] == 0.0;
          }
        }
      }
    }
  }

  lemma ReverseCons(s: seq<real>)
    requires s != []
    ensures Reverse(s) == Reverse(s[1..]) + [s[0]]
  {
  }

  lemma ReverseAppend(a: seq<real>, b: seq<real>)
    ensures Reverse(a + b) == Reverse(b) + Reverse(a)
  {
  }

  lemma ReverseReverse(s: seq<real>)
    ensures Reverse(Reverse(s)) == s
  {
  }

  lemma ReverseInjective(a: seq<real>, b: seq<real>)
    requires Reverse(a) == Reverse(b)
    ensures a == b
  {
    ReverseReverse(a);
    ReverseReverse(b);
  }

  lemma {:induction false} CompactReverse(s: seq<real>)
    ensures Compact(Reverse(s)) == Reverse(Compact(s))
  {
    if s != [] {
      ReverseCons(s);
      CompactAppend(Reverse(s[1..]), [s[0]]);
      CompactReverse(s[1..]);
      assert Compact([s[0]]) == if s[0] != 0.0 then [s[0]] else [];
      ReverseAppend(if s[0] != 0.0 then [s[0]] else [], Compact(s[1..]));
    }
  }

  lemma {:induction false} SumReverse(s: seq<real>)
    ensures Sum(Reverse(s)) == Sum(s)
  {
    if s != [] {
      ReverseCons(s);
      SumAppend(Reverse(s[1..]), [s[0]]);
      SumReverse(s[1..]);
    }
  }

  lemma CountReverse(s: seq<real>)
    ensures Count(Reverse(s)) == Count(s)
  {
    CompactReverse(s);
  }

  lemma HasZeroReverse(s: seq<real>)
    ensures HasZero(Reverse(s)) <==> HasZero(s)
  {
    if HasZero(s) {
      var i :| 0 <= i < |s| && s[i] == 0.0;
      assert Reverse(s)[|s| - 1 - i] == 0.0;
    }
  }

  lemma HasEqualNeighboursReverse(s: seq<real>)
    ensures HasEqualNeighbours(Reverse(s)) <==> HasEqualNeighbours(s)
  {
    if HasEqualNeighbours(s) {
      var i :| 0 <= i < |s| - 1 && s[i] == s[i + 1];
      assert Reverse(s)[|s| - 2 - i] == Reverse(s)[|s| - 1 - i];
    }
    if HasEqualNeighbours(Reverse(s)) {
      var i :| 0 <= i < |s| - 1 && Reverse(s)[i] == Reverse(s)[i + 1];
      assert s[|s| - 2 - i] == s[|s| - 1 - i];
    }
  }

  // ---------------------------------------------------------------- the merge scan

  /** The scan never produces an empty cell from tiles. */
  lemma {:induction false} MergeRunNonZero(a: seq<real>)
    requires forall i :: 0 <= i < |a| ==> a[i] != 0.0
    ensures forall i :: 0 <= i < |MergeRun(a)| ==> MergeRun(a)[i] != 0.0
  {
    if |a| > 1 {
      if a[0] == a[1] {
        MergeRunNonZero(a[2..]);
      } else {
        MergeRunNonZero(a[1..]);
      }
    }
  }

  /** Each merge removes exactly one tile, and a merge takes two tiles, so `2 * merges <= |a|`. */
  lemma {:induction false} MergeRunLength(a: seq<real>)
    ensures |MergeRun(a)| == |a| - RunMerges(a)
    ensures 2 * RunMerges(a) <= |a|
  {
    if |a| > 1 {
      if a[0] == a[1] {
        MergeRunLength(a[2..]);
      } else {
        MergeRunLength(a[1..]);
      }
    }
  }

  /** Merging conserves the total value of the tiles. */
  lemma {:induction false} MergeRunSum(a: seq<real>)
    ensures Sum(MergeRun(a)) == Sum(a)
  {
    if |a| > 1 {
      if a[0] == a[1] {
        MergeRunSum(a[2..]);
        SumAppend([2.0 * a[0]], MergeRun(a[2..]));
        assert Sum(a) == a[0] + (a[1] + Sum(a[2..])) by {
          assert a[1..][1..] == a[2..];
        }
      } else {
        MergeRunSum(a[1..]);
        SumAppend([a[0]], MergeRun(a[1..]));
      }
    }
  }

  /** Without equal neighbours the scan leaves the line as it is. */
  lemma {:induction false} MergeRunIdentity(a: seq<real>)
    requires !HasEqualNeighbours(a)
    ensures MergeRun(a) == a && RunMerges(a) == 0
  {
    if |a| > 1 {
      assert a[0] != a[1];
      forall i | 0 <= i < |a[1..]| - 1 ensures a[1..][i] != a[1..][i + 1] {
        assert a[i + 1] != a[i + 2];
      }
      MergeRunIdentity(a[1..]);
    }
  }

  /** Equal neighbours among the tiles make the scan merge at least once. */
  lemma {:induction false} MergeRunMerges(a: seq<real>)
    requires HasEqualNeighbours(a)
    ensures RunMerges(a) > 0
  {
    if a[0] != a[1] {
      assert HasEqualNeighbours(a[1..]) by {
        var i :| 0 <= i < |a| - 1 && a[i] == a[i + 1];
        assert i > 0;
        assert a[1..][i - 1] == a[1..][i];
      }
      MergeRunMerges(a[1..]);
    }
  }

  /**
   * Where each output tile comes from. `Spans(a)[k]` is the number of input tiles that
   * produced output tile `k`: 1 for a tile that moved, 2 for a merge.
   */
  function Spans(a: seq<real>): (sp: seq<nat>)
    ensures |sp| == |MergeRun(a)|
  {
    if |a| <= 1 then seq(|a|, i => 1)
    else if a[0] == a[1] then [2] + Spans(a[2..])
    else [1] + Spans(a[1..])
  }

  function SumNat(s: seq<nat>): nat {
    if s == [] then 0 else s[0] + SumNat(s[1..])
  }

  /** The sum of the output tiles produced by a merge. */
  function MergedSum(out: seq<real>, sp: seq<nat>): real
    requires |out| == |sp|
  {
    if out == [] then 0.0 else (if sp[0] == 2 then out[0] else 0.0) + MergedSum(out[1..], sp[1..])
  }

  /** Where output tile `k` starts among the input tiles. */
  function SpanStart(a: seq<real>, k: nat): nat
    requires k <= |Spans(a)|
  {
    SumNat(Spans(a)[..k])
  }

  lemma {:induction false} SpansShape(a: seq<real>)
    ensures SumNat(Spans(a)) == |a|
    ensures forall k :: 0 <= k < |Spans(a)| ==> Spans(a)[k] == 1 || Spans(a)[k] == 2
  {
    if |a| == 1 {
      assert Spans(a) == [1];
    } else if |a| > 1 {
      if a[0] == a[1] {
        SpansShape(a[2..]);
      } else {
        SpansShape(a[1..]);
      }
    }
  }

  lemma {:induction false} SpanAt(a: seq<real>, k: nat)
    requires k < |Spans(a)|
    ensures SpanStart(a, k) + Spans(a)[k] <= |a|
    ensures Spans(a)[k] == 1 ==> MergeRun(a)[k] == a[SpanStart(a, k)]
    ensures Spans(a)[k] == 2 ==>
      a[SpanStart(a, k)] == a[SpanStart(a, k) + 1] && MergeRun(a)[k] == 2.0 * a[SpanStart(a, k)]
    decreases |a|
  {
    SpansShape(a);
    if |a| == 1 {
      assert Spans(a)[..0] == [];
    } else {
      var w: nat := if a[0] == a[1] then 2 else 1;
      var rest := a[w..];
      assert MergeRun(a) == [(if w == 2 then 2.0 * a[0] else a[0])] + MergeRun(rest);
      if k == 0 {
        assert Spans(a)[..0] == [];
      } else {
        SpanAt(rest, k - 1);
        SpanStartStep(a, k);
      }
    }
  }

  /** Past the first block, output tile `k` starts where tile `k - 1` of the rest does, shifted by the block. */
  lemma SpanStartStep(a: seq<real>, k: nat)
    requires |a| > 1 && 0 < k < |Spans(a)|
    ensures var w := if a[0] == a[1] then 2 else 1;
      Spans(a) == [w] + Spans(a[w..]) && SpanStart(a, k) == w + SpanStart(a[w..], k - 1)
  {
    var w: nat := if a[0] == a[1] then 2 else 1;
    var rest := a[w..];
    assert Spans(a) == [w] + Spans(rest);
    assert Spans(a)[..k] == [w] + Spans(rest)[..k - 1];
    assert Spans(a)[..k][1..] == Spans(rest)[..k - 1];
  }

  lemma {:induction false} GainIsMergedSum(a: seq<real>)
    ensures RunGain(a) == MergedSum(MergeRun(a), Spans(a))
  {
    if |a| == 1 {
      assert Spans(a) == [1];
    } else if |a| > 1 {
      if a[0] == a[1] {
        GainIsMergedSum(a[2..]);
        assert ([2.0 * a[0]] + MergeRun(a[2..]))[1..] == MergeRun(a[2..]);
      } else {
        GainIsMergedSum(a[1..]);
        assert ([a[0]] + MergeRun(a[1..]))[1..] == MergeRun(a[1..]);
      }
    }
  }

  /**
   * The single-merge rule. The input tiles are cut into consecutive blocks of one or two
   * tiles; output tile `k` is the only tile of block `k`, or is the double of the two equal
   * tiles of block `k`; no output tile comes from more than two inputs. The score gain is the
   * sum of the output tiles produced by merging.
   */
  lemma SingleMerge(a: seq<real>)
    ensures SumNat(Spans(a)) == |a|
    ensures forall k :: 0 <= k < |Spans(a)| ==> Spans(a)[k] == 1 || Spans(a)[k] == 2
    ensures forall k :: 0 <= k < |Spans(a)| ==>
      SpanStart(a, k) + Spans(a)[k] <= |a| &&
      (Spans(a)[k] == 1 ==> MergeRun(a)[k] == a[SpanStart(a, k)]) &&
      (Spans(a)[k] == 2 ==> a[SpanStart(a, k)] == a[SpanStart(a, k) + 1] &&
                            MergeRun(a)[k] == 2.0 * a[SpanStart(a, k)])
    ensures RunGain(a) == MergedSum(MergeRun(a), Spans(a))
  {
    SpansShape(a);
    forall k | 0 <= k < |Spans(a)|
      ensures SpanStart(a, k) + Spans(a)[k] <= |a| &&
        (Spans(a)[k] == 1 ==> MergeRun(a)[k] == a[SpanStart(a, k)]) &&
        (Spans(a)[k] == 2 ==> a[SpanStart(a, k)] == a[SpanStart(a, k) + 1] &&
                              MergeRun(a)[k] == 2.0 * a[SpanStart(a, k)])
    {
      SpanAt(a, k);
    }
    GainIsMergedSum(a);
  }

  // ---------------------------------------------------------------- one squashed line

  lemma ForwardShape(line: seq<real>, n: nat)
    requires |line| == n
    ensures Forward(line, n) == MergeRun(Compact(line)) + Zeros(n - |MergeRun(Compact(line))|)
  {
    var m := MergeRun(Compact(line));
    if |m| == n {
      assert Zeros(0) == [];
      assert m + [] == m;
    }
  }

  /** The left-to-right squash, counted: merges remove tiles; the total value is kept. */
  lemma ForwardFacts(line: seq<real>, n: nat)
    requires |line| == n
    ensures |Forward(line, n)| == n
    ensures Count(Forward(line, n)) == Count(line) - SquashMerges(line, false)
    ensures Sum(Forward(line, n)) == Sum(line)
    ensures forall i, j :: 0 <= i < j < n && Forward(line, n)[i] == 0.0 ==> Forward(line, n)[j] == 0.0
  {
    var c := Compact(line);
    var m := MergeRun(c);
    ForwardShape(line, n);
    MergeRunNonZero(c);
    MergeRunLength(c);
    CompactAppend(m, Zeros(n - |m|));
    ZerosFacts(n - |m|);
    CompactOfNonZero(m);
    assert Compact(m) + [] == m;
    MergeRunSum(c);
    CompactSum(line);
    SumAppend(m, Zeros(n - |m|));
  }

  /**
   * `_squashMerge` returns `size` cells; in the direction of travel the tiles come first and
   * the zeros fill the rest; the line keeps its total value, loses one tile per merge, and
   * for `reverse` mirrors the left-to-right squash of the mirrored line.
   */
  lemma SquashFacts(line: seq<real>, reverse: bool, n: nat)
    requires |line| == n
    ensures |Squash(line, reverse, n)| == n
    ensures Count(Squash(line, reverse, n)) == Count(line) - SquashMerges(line, reverse)
    ensures Sum(Squash(line, reverse, n)) == Sum(line)
    ensures !reverse ==> forall i, j :: 0 <= i < j < n && Squash(line, reverse, n)[i] == 0.0 ==>
      Squash(line, reverse, n)[j] == 0.0
    ensures reverse ==> forall i, j :: 0 <= i < j < n && Squash(line, reverse, n)[j] == 0.0 ==>
      Squash(line, reverse, n)[i] == 0.0
    ensures reverse ==> Squash(line, reverse, n) == Reverse(Squash(Reverse(line), false, n))
  {
    if reverse {
      var f := Forward(Reverse(line), n);
      ForwardFacts(Reverse(line), n);
      CountReverse(f);
      CountReverse(line);
      SumReverse(f);
      SumReverse(line);
      forall i, j | 0 <= i < j < n && Reverse(f)[j] == 0.0 ensures Reverse(f)[i] == 0.0 {
        assert f[n - 1 - j] == 0.0;
      }
    } else {
      ForwardFacts(line, n);
    }
  }

  /** The score gain of non-negative tiles is non-negative. */
  lemma {:induction false} RunGainNonNegative(a: seq<real>)
    requires forall i :: 0 <= i < |a| ==> a[i] >= 0.0
    ensures RunGain(a) >= 0.0
  {
    if |a| > 1 {
      if a[0] == a[1] {
        RunGainNonNegative(a[2..]);
      } else {
        RunGainNonNegative(a[1..]);
      }
    }
  }

  lemma {:induction false} CompactNonNegative(a: seq<real>)
    requires forall i :: 0 <= i < |a| ==> a[i] >= 0.0
    ensures forall i :: 0 <= i < |Compact(a)| ==> Compact(a)[i] >= 0.0
  {
    if a != [] {
      CompactNonNegative(a[1..]);
    }
  }

  /** A move never lowers the score while the cells are non-negative. */
  lemma SquashGainNonNegative(line: seq<real>, reverse: bool)
    requires forall i :: 0 <= i < |line| ==> line[i] >= 0.0
    ensures SquashGain(line, reverse) >= 0.0
  {
    var o := Oriented(line, reverse);
    assert forall i :: 0 <= i < |o| ==> o[i] >= 0.0 by {
      if reverse {
        forall i | 0 <= i < |o| ensures o[i] >= 0.0 {
          assert o[i] == line[|line| - 1 - i];
        }
      }
    }
    CompactNonNegative(o);
    RunGainNonNegative(Compact(o));
  }

  /** A full line without equal neighbours is left unchanged in both directions. */
  lemma SquashFixpoint(line: seq<real>, reverse: bool, n: nat)
    requires |line| == n && !HasZero(line) && !HasEqualNeighbours(line)
    ensures Squash(line, reverse, n) == line
    ensures SquashMerges(line, reverse) == 0
  {
    var o := Oriented(line, reverse);
    HasZeroReverse(line);
    HasEqualNeighboursReverse(line);
    CompactOfNonZero(o);
    MergeRunIdentity(o);
    assert Forward(o, n) == o;
    if reverse {
      ReverseReverse(line);
    }
  }

  /** Equal neighbouring tiles make the squash toward the line's start change the line. */
  lemma SquashMergesNeighbours(line: seq<real>, n: nat)
    requires |line| == n
    requires exists i :: 0 <= i < n - 1 && line[i] == line[i + 1] != 0.0
    ensures Squash(line, false, n) != line
  {
    var i :| 0 <= i < n - 1 && line[i] == line[i + 1] != 0.0;
    CompactParts(line, i);
    var c := Compact(line);
    var k := |Compact(line[..i])|;
    assert c[k] == line[i] && c[k + 1] == line[i + 1];
    MergeRunMerges(c);
    ForwardFacts(line, n);
  }

  lemma CompactParts(line: seq<real>, i: nat)
    requires i + 1 < |line| && line[i] != 0.0 && line[i + 1] != 0.0
    ensures var k := |Compact(line[..i])|;
      k + 1 < |Compact(line)| && Compact(line)[k] == line[i] && Compact(line)[k + 1] == line[i + 1]
  {
    assert line == line[..i] + [line[i], line[i + 1]] + line[i + 2..];
    CompactAppend(line[..i] + [line[i], line[i + 1]], line[i + 2..]);
    CompactAppend(line[..i], [line[i], line[i + 1]]);
    assert Compact([line[i], line[i + 1]]) == [line[i], line[i + 1]] by {
      assert [line[i], line[i + 1]][1..] == [line[i + 1]];
    }
  }

  /**
   * A line holding an empty cell and a tile changes under at least one of the two squashes.
   */
  lemma SquashMovesIntoGap(line: seq<real>, n: nat)
    requires |line| == n && HasZero(line) && Count(line) > 0
    ensures Squash(line, false, n) != line || Squash(line, true, n) != line
  {
    if Squash(line, false, n) == line && Squash(line, true, n) == line {
      ForwardFacts(line, n);
      SquashFacts(line, true, n);
      var z :| 0 <= z < n && line[z] == 0.0;
      // after the left squash every cell from z on is empty; after the right one every cell up to z
      forall j | 0 <= j < n ensures line[j] == 0.0 {
        if j > z {
          assert Squash(line, false, n)[z] == 0.0;
        } else if j < z {
          assert Squash(line, true, n)[z] == 0.0;
        }
      }
      AllZeroCount(line);
    }
  }

  lemma {:induction false} AllZeroCount(s: seq<real>)
    requires forall j :: 0 <= j < |s| ==> s[j] == 0.0
    ensures Count(s) == 0
  {
    if s != [] {
      AllZeroCount(s[1..]);
    }
  }

  /** A scan that merges nothing returns its input. */
  lemma {:induction false} MergeRunNoMerge(a: seq<real>)
    requires RunMerges(a) == 0
    ensures MergeRun(a) == a
  {
    if |a| > 1 {
      MergeRunNoMerge(a[1..]);
    }
  }

  /** A squash that changes the line leaves at least one empty cell, where a tile can spawn. */
  lemma SquashChangeLeavesGap(line: seq<real>, reverse: bool, n: nat)
    requires |line| == n && Squash(line, reverse, n) != line
    ensures HasZero(Squash(line, reverse, n))
  {
    var out := Squash(line, reverse, n);
    var o := Oriented(line, reverse);
    SquashFacts(line, reverse, n);
    CountFull(out);
    CountFull(line);
    if SquashMerges(line, reverse) == 0 && !HasZero(line) {
      HasZeroReverse(line);
      CompactOfNonZero(o);
      MergeRunNoMerge(o);
      assert Forward(o, n) == o;
      if reverse {
        ReverseReverse(line);
      }
      assert false;
    }
  }

  /** `[v, v, v]` becomes `[2v, v, 0]`: the new tile does not merge again. */
  lemma NoChainedMergeOfThree(v: real)
    requires v != 0.0
    ensures Squash([v, v, v], false, 3) == [2.0 * v, v, 0.0]
    ensures SquashGain([v, v, v], false) == 2.0 * v
  {
    assert Compact([v]) == [v] by { assert [v][1..] == []; }
    assert Compact([v, v]) == [v, v] by { assert [v, v][1..] == [v]; }
    assert Compact([v, v, v]) == [v, v, v] by { assert [v, v, v][1..] == [v, v]; }
    assert [v, v, v][2..] == [v];
    assert MergeRun([v, v, v]) == [2.0 * v, v];
    assert RunGain([v, v, v]) == 2.0 * v;
    assert [2.0 * v, v] + Zeros(1) == [2.0 * v, v, 0.0];
  }

  /** `[v, v, v, v]` becomes `[2v, 2v, 0, 0]`, not `[4v, 0, 0, 0]`. */
  lemma NoChainedMergeOfFour(v: real)
    requires v != 0.0
    ensures Squash([v, v, v, v], false, 4) == [2.0 * v, 2.0 * v, 0.0, 0.0]
    ensures SquashGain([v, v, v, v], false) == 4.0 * v
  {
    assert Compact([v]) == [v] by { assert [v][1..] == []; }
    assert Compact([v, v]) == [v, v] by { assert [v, v][1..] == [v]; }
    assert Compact([v, v, v]) == [v, v, v] by { assert [v, v, v][1..] == [v, v]; }
    assert Compact([v, v, v, v]) == [v, v, v, v] by { assert [v, v, v, v][1..] == [v, v, v]; }
    assert [v, v, v, v][2..] == [v, v];
    assert [v, v][2..] == [];
    assert MergeRun([v, v]) == [2.0 * v];
    assert MergeRun([v, v, v, v]) == [2.0 * v, 2.0 * v];
    assert RunGain([v, v]) == 2.0 * v;
    assert RunGain([v, v, v, v]) == 4.0 * v;
    assert [2.0 * v, 2.0 * v] + Zeros(2) == [2.0 * v, 2.0 * v, 0.0, 0.0];
  }
}
