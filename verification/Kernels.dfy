/**
 * crates/pwm-core/src/predictor.rs and tables.rs: the exact integer kernels that the
 * prover runs and the verifier recomputes. The loop kernels are methods proved
 * against the functions of the same meaning.
 */
module Kernels {
  import opened Wrappers
  import opened Arith
  import opened Matrix
  import opened FixedPoint

  // -------------------------------------------------------------- lookup tables

  datatype ActivationTable = ActivationTable(tableId: nat, lo: int, outputs: seq<int>) {
    function Eval(x: int): Option<int> {
      if x < lo then None
      else if x - lo >= |outputs| then None
      else Some(outputs[x - lo])
    }

    predicate Covers(a: int, b: int) {
      lo <= a && b < lo + |outputs|
    }
  }

  /** Look every entry up; None as soon as one is outside the domain. */
  function EvalAll(t: ActivationTable, xs: seq<int>): (r: Option<seq<int>>)
    ensures r.Some? ==> |r.value| == |xs|
  {
    if |xs| == 0 then Some([])
    else
      var init := EvalAll(t, xs[..|xs| - 1]);
      var last := t.Eval(xs[|xs| - 1]);
      if init.None? || last.None? then None else Some(init.value + [last.value])
  }

  lemma {:induction false} EvalAllAt(t: ActivationTable, xs: seq<int>, i: nat)
    requires EvalAll(t, xs).Some? && i < |xs|
    ensures t.Eval(xs[i]) == Some(EvalAll(t, xs).value[i])
  {
    if i < |xs| - 1 { EvalAllAt(t, xs[..|xs| - 1], i); }
  }

  lemma {:induction false} EvalAllSucceeds(t: ActivationTable, xs: seq<int>)
    requires forall i :: 0 <= i < |xs| ==> t.Eval(xs[i]).Some?
    ensures EvalAll(t, xs).Some?
  {
    if |xs| != 0 { EvalAllSucceeds(t, xs[..|xs| - 1]); }
  }

  /** Defined exactly when every entry is in the domain, and then entry by entry. */
  lemma EvalAllExactly(t: ActivationTable, xs: seq<int>)
    ensures EvalAll(t, xs).Some? <==> forall i :: 0 <= i < |xs| ==> t.lo <= xs[i] < t.lo + |t.outputs|
    ensures EvalAll(t, xs).Some? ==>
              forall i :: 0 <= i < |xs| ==> EvalAll(t, xs).value[i] == t.outputs[xs[i] - t.lo]
  {
    if EvalAll(t, xs).Some? {
      forall i | 0 <= i < |xs| ensures t.Eval(xs[i]) == Some(EvalAll(t, xs).value[i]) { EvalAllAt(t, xs, i); }
    } else if forall i :: 0 <= i < |xs| ==> t.lo <= xs[i] < t.lo + |t.outputs| {
      EvalAllSucceeds(t, xs);
    }
  }

  /** One more entry read: the loop step of every table walk. */
  lemma EvalAllSnoc(t: ActivationTable, xs: seq<int>, i: nat)
    requires i < |xs| && EvalAll(t, xs[..i]).Some? && t.Eval(xs[i]).Some?
    ensures EvalAll(t, xs[..i + 1]) == Some(EvalAll(t, xs[..i]).value + [t.Eval(xs[i]).value])
  {
    assert xs[..i + 1][..i] == xs[..i] && xs[..i + 1][i] == xs[i];
  }

  // --------------------------------------------------------- elementwise kernels

  function RoundDiv(a: int, n: int): int
    requires n > 0
  {
    if a >= 0 then (a + n / 2) / n else -((-a + n / 2) / n)
  }

  /** Rounding division is within half a unit of the exact quotient. */
  lemma RoundDivNear(a: int, n: int)
    requires n > 0
    ensures -n <= 2 * (RoundDiv(a, n) * n - a) <= n
  {
    var b := if a >= 0 then a else -a;
    var q := (b + n / 2) / n;
    assert b + n / 2 == q * n + (b + n / 2) % n;
    assert (-q) * n == -(q * n);
  }

  /** `q` is an integer nearest to `a / n`, the one farther from zero on a tie. */
  ghost predicate IsNearestAway(q: int, a: int, n: int) {
    var e := q * n - a;
    2 * Mag(e) <= n && (2 * Mag(e) == n ==> Mag(q * n) > Mag(a))
  }

  lemma RoundDivOdd(a: int, n: int)
    requires n > 0
    ensures RoundDiv(-a, n) == -RoundDiv(a, n)
  {
    if a == 0 { ModUnique(n / 2, n, 0, n / 2); }
  }

  lemma AwayFromSplit(a: nat, n: int, m: int, r: int)
    requires n > 0 && a + n / 2 == m + r && 0 <= r < n
    ensures 2 * Mag(m - a) <= n && (2 * Mag(m - a) == n ==> Mag(m) > a)
  {
  }

  lemma RoundDivAway(a: int, n: int)
    requires n > 0
    ensures IsNearestAway(RoundDiv(a, n), a, n)
    decreases a < 0
  {
    if a < 0 {
      RoundDivAway(-a, n);
      RoundDivOdd(a, n);
      assert (-RoundDiv(a, n)) * n == -(RoundDiv(a, n) * n);
    } else {
      var q, r := (a + n / 2) / n, (a + n / 2) % n;
      AwayFromSplit(a, n, q * n, r);
    }
  }

  /** Neighbours of a tie lie on both sides of it, and only one is farther from zero. */
  lemma NearestAwayOrdered(p: int, q: int, a: int, n: int)
    requires n > 0 && p < q && IsNearestAway(p, a, n)
    ensures !IsNearestAway(q, a, n)
  {
    MultiplesApart(q, p, n);
    NonzeroMultiple(p, n);
    NonzeroMultiple(q, n);
  }

  lemma NearestAwayUnique(p: int, q: int, a: int, n: int)
    requires n > 0 && IsNearestAway(p, a, n) && IsNearestAway(q, a, n)
    ensures p == q
  {
    if p < q { NearestAwayOrdered(p, q, a, n); }
    if q < p { NearestAwayOrdered(q, p, a, n); }
  }

  /** Rounding division is the nearest integer, half away from zero, and nothing else is. */
  lemma RoundDivIsHalfAway(a: int, n: int, q: int)
    requires n > 0
    ensures q == RoundDiv(a, n) <==> IsNearestAway(q, a, n)
  {
    RoundDivAway(a, n);
    if IsNearestAway(q, a, n) { NearestAwayUnique(q, RoundDiv(a, n), a, n); }
  }

  /** The rounded mean of integers in `[lo, hi]` stays in `[lo, hi]`. */
  lemma RoundDivMean(a: int, n: int, lo: int, hi: int)
    requires n > 0 && n * lo <= a <= n * hi
    ensures lo <= RoundDiv(a, n) <= hi
  {
    RoundDivNear(a, n);
    var q := RoundDiv(a, n);
    assert n * lo == lo * n && n * hi == hi * n;
    MultiplesApart(q, hi, n);
    MultiplesApart(lo, q, n);
  }

  /** Row `i` of a row-major weight buffer. */
  function Row(w: seq<int>, i: nat, cols: nat): (r: seq<int>)
    requires i * cols + cols <= |w|
    ensures |r| == cols
  {
    assert i * cols >= 0;
    w[i * cols..i * cols + cols]
  }

  /** `W·x + bias`, one inner product per output row. */
  function Linear(w: seq<int>, x: seq<int>, bias: seq<int>, rows: nat, cols: nat): (out: seq<int>)
    requires |w| == rows * cols && |x| == cols && |bias| == rows
    ensures |out| == rows
    ensures forall i :: 0 <= i < rows ==> i * cols + cols <= |w|
    ensures forall i :: 0 <= i < rows ==> out[i] == bias[i] + DotN(Row(w, i, cols), x, cols)
  {
    assert forall i :: 0 <= i < rows ==> i * cols + cols <= rows * cols by {
      forall i | 0 <= i < rows ensures i * cols + cols <= rows * cols { RowBounds(i, rows, cols); }
    }
    seq(rows, i requires 0 <= i < rows => bias[i] + DotN(Row(w, i, cols), x, cols))
  }

  /** The same weight applied to each row of a matrix. */
  function LinearMat(w: seq<int>, x: Mat, bias: seq<int>, rows: nat, cols: nat): (m: Mat)
    requires |w| == rows * cols && IsMat(x, |x|, cols) && |bias| == rows
    ensures IsMat(m, |x|, rows)
  {
    seq(|x|, p requires 0 <= p < |x| => Linear(w, x[p], bias, rows, cols))
  }

  /** The same on a packed buffer of `s` rows. */
  function LinearRows(w: seq<int>, x: seq<int>, bias: seq<int>, s: nat, rows: nat, cols: nat): seq<int>
    requires |w| == rows * cols && |x| == s * cols && |bias| == rows
  {
    Flatten(LinearMat(w, Rows(x, s, cols), bias, rows, cols))
  }

  datatype Requant = Requant(shift: nat, lo: int, hi: int, mode: Rounding) {
    function Apply(n: int): int { Requantize(n, shift, 0, lo, hi, mode) }
  }

  function RequantAll(xs: seq<int>, shift: nat, zeroPoint: int, lo: int, hi: int, mode: Rounding): seq<int> {
    seq(|xs|, i requires 0 <= i < |xs| => Requantize(xs[i], shift, zeroPoint, lo, hi, mode))
  }

  function Modulate(x: int, scale: int, shift: int, one: int, rq: Requant): int {
    rq.Apply(x * (one + scale)) + shift
  }

  /** `zip` of three vectors: the shortest length wins. */
  function ModulateVec(x: seq<int>, scale: seq<int>, shift: seq<int>, one: int, rq: Requant): seq<int> {
    seq(Min(Min(|x|, |scale|), |shift|),
        i requires 0 <= i < |x| && i < |scale| && i < |shift| => Modulate(x[i], scale[i], shift[i], one, rq))
  }

  function GateVec(g: seq<int>, x: seq<int>, rq: Requant): seq<int> {
    seq(Min(|g|, |x|), i requires 0 <= i < |g| && i < |x| => rq.Apply(g[i] * x[i]))
  }

  function ResidualAdd(a: seq<int>, b: seq<int>): seq<int> {
    seq(Min(|a|, |b|), i requires 0 <= i < |a| && i < |b| => a[i] + b[i])
  }

  // ------------------------------------------------------------------- layernorm

  function Mean(x: seq<int>): int
    requires |x| > 0
  {
    RoundDiv(Sum(x), |x|)
  }

  function Centered(x: seq<int>, mean: int): seq<int> {
    seq(|x|, i requires 0 <= i < |x| => x[i] - mean)
  }

  function Variance(x: seq<int>): int
    requires |x| > 0
  {
    var c := Centered(x, Mean(x));
    RoundDiv(DotN(c, c, |x|), |x|)
  }

  /** None when the variance is outside the inverse-square-root table. */
  function LayerNorm(x: seq<int>, invSqrt: ActivationTable, rq: Requant): (r: Option<seq<int>>)
    ensures r.Some? ==> |r.value| == |x|
  {
    if |x| == 0 then Some([])
    else
      var inv := invSqrt.Eval(Variance(x));
      if inv.None? then None
      else
        var c := Centered(x, Mean(x));
        Some(seq(|x|, i requires 0 <= i < |x| => rq.Apply(c[i] * inv.value)))
  }

  /** Entries spanning at most `width` give a variance in `[0, width^2]`. */
  lemma VarianceBound(x: seq<int>, lo: int, hi: int)
    requires |x| > 0 && AllIn(x, lo, hi)
    ensures lo <= Mean(x) <= hi
    ensures 0 <= Variance(x) <= (hi - lo) * (hi - lo)
  {
    var n, w := |x|, hi - lo;
    SumNBound(x, n, lo, hi);
    RoundDivMean(Sum(x), n, lo, hi);
    var c := Centered(x, Mean(x));
    var squares := seq(n, i requires 0 <= i < n => c[i] * c[i]);
    forall i | 0 <= i < n ensures 0 <= squares[i] <= w * w {
      assert -w <= c[i] <= w;
      MulBound(c[i], c[i], w, w);
    }
    SumNBound(squares, n, 0, w * w);
    DotIsSum(c, c, squares, n);
    RoundDivMean(DotN(c, c, n), n, 0, w * w);
  }

  lemma {:induction false} DotIsSum(a: seq<int>, b: seq<int>, products: seq<int>, n: nat)
    requires n <= |a| && n <= |b| && n <= |products|
    requires forall i :: 0 <= i < n ==> products[i] == a[i] * b[i]
    ensures DotN(a, b, n) == SumN(products, n)
  {
    if n != 0 { DotIsSum(a, b, products, n - 1); }
  }

  // --------------------------------------------------------------------- softmax

  function Max(xs: seq<int>): (m: int)
    requires |xs| > 0
    ensures m in xs
    ensures forall i :: 0 <= i < |xs| ==> xs[i] <= m
  {
    if |xs| == 1 then xs[0]
    else
      var m := Max(xs[..|xs| - 1]);
      if xs[|xs| - 1] > m then xs[|xs| - 1] else m
  }

  lemma {:induction false} ArgMax(xs: seq<int>) returns (i: nat)
    requires |xs| > 0
    ensures i < |xs| && xs[i] == Max(xs)
  {
    if xs[|xs| - 1] == Max(xs) {
      i := |xs| - 1;
    } else {
      i := ArgMax(xs[..|xs| - 1]);
    }
  }

  /** Division truncating toward zero, as i64 division does. */
  function TruncDiv(a: int, b: int): int
    requires b != 0
  {
    var q := (if a < 0 then -a else a) / (if b < 0 then -b else b);
    if (a < 0) == (b < 0) then q else -q
  }

  /** `r` is what truncating division by `b` may leave of `a`: smaller than `b`, with the sign of `a`. */
  predicate LeftOver(r: int, a: int, b: int) {
    Mag(r) < Mag(b) && (r > 0 ==> a > 0) && (r < 0 ==> a < 0)
  }

  /** The quotient toward zero is the one whose remainder is left over. */
  lemma TruncDivTruncates(a: int, b: int, q: int)
    requires b != 0
    ensures q == TruncDiv(a, b) <==> LeftOver(a - q * b, a, b)
  {
    hide TruncDiv;
    var t := TruncDiv(a, b);
    TruncDivRemainder(a, b);
    if LeftOver(a - q * b, a, b) { QuotientsAgree(a, b, q, t); }
  }

  lemma QuotientsAgree(a: int, b: int, q: int, t: int)
    requires LeftOver(a - q * b, a, b) && LeftOver(a - t * b, a, b)
    ensures q == t
  {
    assert (q - t) * b == q * b - t * b;
    SmallMultiple(q - t, b);
  }

  lemma SmallMultiple(k: int, b: int)
    requires Mag(k * b) < Mag(b)
    ensures k == 0
  {
    if b > 0 { NonzeroMultiple(k, b); } else if b < 0 { NonzeroMultiple(k, -b); }
  }

  lemma Signs(k: int, d: int)
    ensures (-k) * d == -(k * d) && k * (-d) == -(k * d) && (-k) * (-d) == k * d
  {
  }

  lemma TruncDivProduct(a: int, b: int)
    requires b != 0
    ensures var k := Mag(a) / Mag(b); TruncDiv(a, b) * b == if a < 0 then -(k * Mag(b)) else k * Mag(b)
  {
    Signs(Mag(a) / Mag(b), Mag(b));
  }

  lemma Left(a: int, b: int, p: int, k: int)
    requires p == (if a < 0 then -k else k) && 0 <= k && 0 <= Mag(a) - k < Mag(b)
    ensures LeftOver(a - p, a, b)
  {
  }

  lemma Floored(m: nat, d: nat)
    requires d > 0
    ensures 0 <= m / d * d && 0 <= m - m / d * d < d
  {
    MulMono(0, m / d, d);
    assert m == m / d * d + m % d;
  }

  lemma TruncDivRemainder(a: int, b: int)
    requires b != 0
    ensures LeftOver(a - TruncDiv(a, b) * b, a, b)
  {
    hide TruncDiv, Mag, LeftOver;
    assert Mag(b) > 0 by { MagPositive(b); }
    TruncDivProduct(a, b);
    Floored(Mag(a), Mag(b));
    Left(a, b, TruncDiv(a, b) * b, Mag(a) / Mag(b) * Mag(b));
  }

  lemma MagPositive(b: int)
    requires b != 0
    ensures Mag(b) > 0
  {
  }

  /** Scores relative to their maximum. */
  function Shifted(scores: seq<int>): seq<int> {
    if |scores| == 0 then [] else Centered(scores, Max(scores))
  }

  function Probs(exps: seq<int>, one: int, total: int): seq<int>
    requires total != 0
  {
    seq(|exps|, i requires 0 <= i < |exps| => TruncDiv(exps[i] * one, total))
  }

  function Softmax(scores: seq<int>, exp: ActivationTable, one: int): (r: Option<seq<int>>)
    ensures r.Some? ==> |r.value| == |scores|
  {
    if |scores| == 0 then Some([])
    else
      var exps := EvalAll(exp, Shifted(scores));
      if exps.None? then None
      else if Sum(exps.value) == 0 then None
      else Some(Probs(exps.value, one, Sum(exps.value)))
  }

  /** Apply softmax to each row; None if any row fails. */
  function SoftmaxMat(m: Mat, exp: ActivationTable, one: int): (r: Option<Mat>)
    ensures r.Some? ==> |r.value| == |m|
  {
    if m == [] then Some([])
    else
      var first := Softmax(m[0], exp, one);
      var rest := SoftmaxMat(m[1..], exp, one);
      if first.None? || rest.None? then None else Some([first.value] + rest.value)
  }

  lemma {:induction false} SoftmaxMatRow(m: Mat, exp: ActivationTable, one: int, p: nat)
    requires SoftmaxMat(m, exp, one).Some? && p < |m|
    ensures Softmax(m[p], exp, one) == Some(SoftmaxMat(m, exp, one).value[p])
  {
    if p > 0 {
      SoftmaxMatRow(m[1..], exp, one, p - 1);
    }
  }

  /** Softmax over consecutive chunks, the way `chunks` cuts a slice, after `out`. */
  function SoftmaxChunks(out: seq<int>, x: seq<int>, rowLen: nat, exp: ActivationTable, one: int): Option<seq<int>>
    requires rowLen > 0
    decreases |x|
  {
    if |x| == 0 then Some(out)
    else
      var n := Min(rowLen, |x|);
      var first := Softmax(x[..n], exp, one);
      if first.None? then None else SoftmaxChunks(out + first.value, x[n..], rowLen, exp, one)
  }

  function SoftmaxRows(scores: seq<int>, rowLen: nat, exp: ActivationTable, one: int): Option<seq<int>> {
    if rowLen == 0 || |scores| % rowLen != 0 then None
    else SoftmaxChunks([], scores, rowLen, exp, one)
  }

  /** On a flattened matrix the chunks are the rows. */
  lemma {:induction false} SoftmaxChunksOfRows(out: seq<int>, m: Mat, rowLen: nat, exp: ActivationTable, one: int)
    requires rowLen > 0 && IsMat(m, |m|, rowLen) && SoftmaxMat(m, exp, one).Some?
    ensures SoftmaxChunks(out, Flatten(m), rowLen, exp, one) == Some(out + Flatten(SoftmaxMat(m, exp, one).value))
    decreases |m|
  {
    if m == [] {
      assert out + [] == out;
    } else {
      var first, rest := Softmax(m[0], exp, one).value, SoftmaxMat(m[1..], exp, one).value;
      SoftmaxChunksOfRows(out + first, m[1..], rowLen, exp, one);
      assert m == [m[0]] + m[1..];
      FirstRow(out, m[0], m[1..], first, rest, rowLen, exp, one);
    }
  }

  lemma FirstRow(out: seq<int>, row: seq<int>, m: Mat, first: seq<int>, rest: Mat, rowLen: nat, exp: ActivationTable,
                 one: int)
    requires rowLen == |row| > 0 && Softmax(row, exp, one) == Some(first)
    requires SoftmaxChunks(out + first, Flatten(m), rowLen, exp, one) == Some((out + first) + Flatten(rest))
    ensures SoftmaxChunks(out, Flatten([row] + m), rowLen, exp, one) == Some(out + Flatten([first] + rest))
  {
    FlattenCons(row, m);
    FlattenCons(first, rest);
    assert (out + first) + Flatten(rest) == out + (first + Flatten(rest));
    var x := row + Flatten(m);
    assert x[..rowLen] == row && x[rowLen..] == Flatten(m);
  }

  // ---------------------------------------------------------------------- matmul

  function MatMulEntry(b: seq<int>, inner: nat, cols: nat, transposeB: bool, j: nat, k: nat): int
    requires |b| == cols * inner && j < cols && k < inner
  {
    RowBounds(j, cols, inner);
    RowBounds(k, inner, cols);
    assert j * inner + k < cols * inner && k * cols + j < inner * cols;
    if transposeB then b[j * inner + k] else b[k * cols + j]
  }

  /** Column `j` of the right operand (row `j` when it is given transposed). */
  function MatMulCol(b: seq<int>, inner: nat, cols: nat, transposeB: bool, j: nat): (c: seq<int>)
    requires |b| == cols * inner && j < cols
    ensures |c| == inner
  {
    seq(inner, k requires 0 <= k < inner => MatMulEntry(b, inner, cols, transposeB, j, k))
  }

  function MatMulRow(a: seq<int>, b: seq<int>, inner: nat, cols: nat, transposeB: bool): (r: seq<int>)
    requires |a| == inner && |b| == cols * inner
    ensures |r| == cols
  {
    seq(cols, j requires 0 <= j < cols => DotN(a, MatMulCol(b, inner, cols, transposeB, j), inner))
  }

  function MatMulMat(a: Mat, b: seq<int>, inner: nat, cols: nat, transposeB: bool): (m: Mat)
    requires IsMat(a, |a|, inner) && |b| == cols * inner
    ensures IsMat(m, |a|, cols)
  {
    seq(|a|, i requires 0 <= i < |a| => MatMulRow(a[i], b, inner, cols, transposeB))
  }

  function MatMul(a: seq<int>, b: seq<int>, rows: nat, inner: nat, cols: nat, transposeB: bool): Option<seq<int>> {
    if |a| != rows * inner || |b| != cols * inner then None
    else Some(Flatten(MatMulMat(Rows(a, rows, inner), b, inner, cols, transposeB)))
  }

  // ------------------------------------------------------------ the loop kernels

  method ComputeSoftmax(scores: seq<int>, exp: ActivationTable, one: int) returns (r: Option<seq<int>>)
    ensures r == Softmax(scores, exp, one)
  {
    if |scores| == 0 {
      return Some([]);
    }
    var m := Max(scores);
    ghost var shifted := Shifted(scores);
    var exps: seq<int> := [];
    var sum := 0;
    for i := 0 to |scores|
      invariant sum == Sum(exps)
      invariant EvalAll(exp, shifted[..i]) == Some(exps)
    {
      var e := exp.Eval(scores[i] - m);
      assert shifted[i] == scores[i] - m;
      if e.None? {
        if EvalAll(exp, shifted).Some? { EvalAllAt(exp, shifted, i); }
        return None;
      }
      EvalAllSnoc(exp, shifted, i);
      SumSnoc(exps, e.value);
      sum := sum + e.value;
      exps := exps + [e.value];
    }
    assert shifted[..|scores|] == shifted;
    if sum == 0 {
      return None;
    }
    r := Some(Probs(exps, one, sum));
  }

  lemma {:induction false} SumNPrefix(a: seq<int>, b: seq<int>, n: nat)
    requires n <= |a| && n <= |b| && a[..n] == b[..n]
    ensures SumN(a, n) == SumN(b, n)
  {
    if n != 0 {
      assert a[..n - 1] == a[..n][..n - 1] == b[..n][..n - 1] == b[..n - 1];
      assert a[n - 1] == a[..n][n - 1] == b[n - 1];
      SumNPrefix(a, b, n - 1);
    }
  }

  lemma SumSnoc(a: seq<int>, x: int)
    ensures Sum(a + [x]) == Sum(a) + x
  {
    SumNPrefix(a + [x], a, |a|);
  }

  method ComputeSoftmaxRows(scores: seq<int>, rowLen: nat, exp: ActivationTable, one: int)
    returns (r: Option<seq<int>>)
    ensures r == SoftmaxRows(scores, rowLen, exp, one)
  {
    if rowLen == 0 || |scores| % rowLen != 0 {
      return None;
    }
    var out, rest := [], scores;
    while |rest| > 0
      invariant SoftmaxChunks(out, rest, rowLen, exp, one) == SoftmaxChunks([], scores, rowLen, exp, one)
    {
      var n := Min(rowLen, |rest|);
      var chunk := ComputeSoftmax(rest[..n], exp, one);
      if chunk.None? {
        return None;
      }
      out := out + chunk.value;
      rest := rest[n..];
    }
    r := Some(out);
  }

  method ComputeMatMul(a: seq<int>, b: seq<int>, rows: nat, inner: nat, cols: nat, transposeB: bool)
    returns (r: Option<seq<int>>)
    ensures r == MatMul(a, b, rows, inner, cols, transposeB)
  {
    if |a| != rows * inner || |b| != cols * inner {
      return None;
    }
    ghost var am := Rows(a, rows, inner);
    ghost var m := MatMulMat(am, b, inner, cols, transposeB);
    var out := new int[rows * cols](_ => 0);
    for i := 0 to rows
      invariant 0 <= i * cols <= out.Length
      invariant out[..i * cols] == Flatten(m[..i])
    {
      RowBounds(i, rows, cols);
      RowBounds(i, rows, inner);
      FlattenRows(a, rows, inner);
      FlattenRow(am, rows, inner, i);
      var base, start := i * cols, i * inner;
      FillMatMulRow(a[start..start + inner], b, inner, cols, transposeB, out, base);
      FlattenPrefix(m, i);
    }
    assert m[..rows] == m;
    assert out[..] == out[..rows * cols];
    r := Some(out[..]);
  }

  /** The inner two loops: one output row, written at `base`. */
  method FillMatMulRow(arow: seq<int>, b: seq<int>, inner: nat, cols: nat, transposeB: bool, out: array<int>, base: nat)
    requires |arow| == inner && |b| == cols * inner && base + cols <= out.Length
    modifies out
    ensures out[..base + cols] == old(out[..base]) + MatMulRow(arow, b, inner, cols, transposeB)
  {
    ghost var row := MatMulRow(arow, b, inner, cols, transposeB);
    for j := 0 to cols
      invariant out[..base] == old(out[..base])
      invariant out[base..base + j] == row[..j]
    {
      var acc := 0;
      ghost var col := MatMulCol(b, inner, cols, transposeB, j);
      for k := 0 to inner
        invariant acc == DotN(arow, col, k)
      {
        var bv := MatMulEntry(b, inner, cols, transposeB, j, k);
        acc := acc + arow[k] * bv;
      }
      out[base + j] := acc;
      assert out[base..base + j + 1] == out[base..base + j] + [acc];
    }
    assert out[..base + cols] == out[..base] + out[base..base + cols];
  }

  // ----------------------------------------------------- what softmax guarantees

  /** A table with no negative output. */
  predicate Nonnegative(t: ActivationTable) {
    forall i :: 0 <= i < |t.outputs| ==> t.outputs[i] >= 0
  }

  predicate Nondecreasing(t: ActivationTable) {
    forall i, j :: 0 <= i <= j < |t.outputs| ==> t.outputs[i] <= t.outputs[j]
  }

  lemma {:induction false} SumScale(a: seq<int>, k: int, b: seq<int>, n: nat)
    requires n <= |a| && n <= |b| && forall i :: 0 <= i < n ==> b[i] == a[i] * k
    ensures SumN(b, n) == SumN(a, n) * k
  {
    if n != 0 {
      SumScale(a, k, b, n - 1);
      assert (SumN(a, n - 1) + a[n - 1]) * k == SumN(a, n - 1) * k + a[n - 1] * k;
    }
  }

  lemma {:induction false} SumBetween(a: seq<int>, b: seq<int>, slack: int, n: nat)
    requires n <= |a| && n <= |b| && forall i :: 0 <= i < n ==> a[i] - slack <= b[i] <= a[i]
    ensures SumN(a, n) - n * slack <= SumN(b, n) <= SumN(a, n)
  {
    if n != 0 {
      SumBetween(a, b, slack, n - 1);
      assert n * slack == (n - 1) * slack + slack;
    }
  }

  lemma FloorBounds(e: int, d: int)
    requires d > 0
    ensures e - (d - 1) <= (e / d) * d <= e
    ensures e >= 0 ==> e / d >= 0
  {
    assert e == (e / d) * d + e % d;
    NonzeroMultiple(e / d, d);
  }

  /** With a nonnegative table the total is positive and each entry is a floor. */
  lemma SoftmaxFacts(scores: seq<int>, exp: ActivationTable, one: int) returns (exps: seq<int>, total: int)
    requires |scores| > 0 && Nonnegative(exp) && one >= 0
    requires Softmax(scores, exp, one).Some?
    ensures EvalAll(exp, Shifted(scores)) == Some(exps) && |exps| == |scores|
    ensures total == Sum(exps) && total > 0
    ensures forall i :: 0 <= i < |exps| ==> 0 <= exps[i] <= total && exps[i] * one >= 0
    ensures forall i :: 0 <= i < |exps| ==> Softmax(scores, exp, one).value[i] == exps[i] * one / total
  {
    exps := EvalAll(exp, Shifted(scores)).value;
    total := Sum(exps);
    forall i | 0 <= i < |exps| ensures exps[i] >= 0 && exps[i] * one >= 0 {
      EvalAllAt(exp, Shifted(scores), i);
      MulMono(0, exps[i], one);
    }
    SumNonneg(exps, |exps|);
  }

  lemma ProbInRange(e: int, one: int, total: int, p: int)
    requires 0 <= e <= total && total > 0 && one >= 0 && e * one >= 0 && p == e * one / total
    ensures e * one - (total - 1) <= p * total <= e * one && 0 <= p <= one
  {
    FloorBounds(e * one, total);
    MulMono(e, total, one);
    MultiplesApart(p, one, total);
  }

  /** Every returned row is nonnegative and sums to within (one - len, one]. */
  lemma SoftmaxMass(scores: seq<int>, exp: ActivationTable, one: int)
    requires |scores| > 0 && Nonnegative(exp) && one >= 0
    requires Softmax(scores, exp, one).Some?
    ensures var probs := Softmax(scores, exp, one).value;
            && AllIn(probs, 0, one)
            && one - |scores| < Sum(probs) <= one
  {
    var exps, total := SoftmaxFacts(scores, exp, one);
    var probs := Softmax(scores, exp, one).value;
    forall i | 0 <= i < |probs|
      ensures exps[i] * one - (total - 1) <= probs[i] * total <= exps[i] * one && 0 <= probs[i] <= one
    {
      ProbInRange(exps[i], one, total, probs[i]);
    }
    FlooredSum(exps, one, total, probs);
  }

  /** Entries floored after scaling by one / total sum to just below `one`. */
  lemma FlooredSum(exps: seq<int>, one: int, total: int, probs: seq<int>)
    requires |exps| == |probs| > 0 && total == Sum(exps) > 0
    requires forall i :: 0 <= i < |probs| ==> exps[i] * one - (total - 1) <= probs[i] * total <= exps[i] * one
    ensures one - |probs| < Sum(probs) <= one
  {
    var n := |probs|;
    var scaled := seq(n, i requires 0 <= i < n => exps[i] * one);
    var whole := seq(n, i requires 0 <= i < n => probs[i] * total);
    SumScale(exps, one, scaled, n);
    SumScale(probs, total, whole, n);
    SumBetween(scaled, whole, total - 1, n);
    MassBounds(Sum(probs), one, n, total);
  }

  lemma MassBounds(s: int, one: int, n: int, total: int)
    requires total > 0 && n > 0 && total * one - n * (total - 1) <= s * total <= total * one
    ensures one - n < s <= one
  {
    assert total * one == one * total && n * (total - 1) == n * total - n;
    assert (one - n) * total == one * total - n * total;
    MultiplesApart(one - n, s, total);
    MultiplesApart(s, one, total);
    if s == one - n { assert false; }
  }

  lemma {:induction false} SumNonneg(a: seq<int>, n: nat)
    requires n <= |a| && forall i :: 0 <= i < n ==> a[i] >= 0
    ensures SumN(a, n) >= 0
    ensures forall i :: 0 <= i < n ==> a[i] <= SumN(a, n)
  {
    if n != 0 { SumNonneg(a, n - 1); }
  }

  lemma CenteredTwice(x: seq<int>, c: int, m: int)
    ensures Centered(Centered(x, -c), m + c) == Centered(x, m)
  {
  }

  /** Adding a constant to all scores changes nothing. */
  lemma SoftmaxShiftInvariant(scores: seq<int>, c: int, exp: ActivationTable, one: int)
    ensures Softmax(Centered(scores, -c), exp, one) == Softmax(scores, exp, one)
  {
    var moved := Centered(scores, -c);
    if |scores| != 0 {
      var i := ArgMax(scores);
      assert moved[i] == Max(scores) + c;
      var j := ArgMax(moved);
      assert scores[j] == Max(moved) - c;
      CenteredTwice(scores, c, Max(scores));
      assert Shifted(moved) == Shifted(scores);
      hide Shifted, EvalAll;
    }
  }

  /** Probabilities are ordered like the scores. */
  lemma SoftmaxOrder(scores: seq<int>, exp: ActivationTable, one: int, i: nat, j: nat)
    requires Nonnegative(exp) && Nondecreasing(exp) && one >= 0
    requires i < |scores| && j < |scores| && scores[i] <= scores[j]
    requires Softmax(scores, exp, one).Some?
    ensures Softmax(scores, exp, one).value[i] <= Softmax(scores, exp, one).value[j]
  {
    var exps, total := SoftmaxFacts(scores, exp, one);
    var s := Shifted(scores);
    EvalAllAt(exp, s, i);
    EvalAllAt(exp, s, j);
    MulMono(exps[i], exps[j], one);
    DivMonotone(exps[i] * one, exps[j] * one, total);
  }

  lemma DivMonotone(a: int, b: int, d: int)
    requires d > 0 && 0 <= a <= b
    ensures a / d <= b / d
  {
    MultiplesApart(a / d, b / d, d);
  }

  /** So the attention mix of values bounded by `m` is bounded by `one * m`. */
  lemma AttentionBounded(scores: seq<int>, exp: ActivationTable, one: int, v: seq<int>, m: int)
    requires |scores| > 0 && Nonnegative(exp) && one >= 0
    requires Softmax(scores, exp, one).Some? && |v| == |scores| && m >= 0 && AllIn(v, -m, m)
    ensures -(one * m) <= Dot(Softmax(scores, exp, one).value, v) <= one * m
  {
    SoftmaxMass(scores, exp, one);
    var p := Softmax(scores, exp, one).value;
    WeightedBound(p, v, m, |p|);
    MulMono(Sum(p), one, m);
  }

  lemma {:induction false} WeightedBound(p: seq<int>, v: seq<int>, m: int, n: nat)
    requires n <= |p| && n <= |v|
    requires forall i :: 0 <= i < n ==> p[i] >= 0 && -m <= v[i] <= m
    ensures -(SumN(p, n) * m) <= DotN(p, v, n) <= SumN(p, n) * m
  {
    if n != 0 {
      WeightedBound(p, v, m, n - 1);
      var a, b := p[n - 1], v[n - 1];
      assert -(a * m) <= a * b <= a * m by { assert a * (m - b) >= 0 && a * (m + b) >= 0; }
      assert (SumN(p, n - 1) + a) * m == SumN(p, n - 1) * m + a * m;
    }
  }
}
