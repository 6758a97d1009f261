/**
 * i64 arithmetic: every intermediate value the kernels of crates/pwm-core/src/predictor.rs
 * and fixed_point.rs form on the way to an op's output. Over machine words the kernels
 * compute the same on such runs (module Machine).
 */
module Overflow {
  import opened Wrappers
  import opened Arith
  import opened Matrix
  import opened FixedPoint
  import opened Kernels
  import opened Tensors
  import opened Blocks
  import opened Field
  import P = BlockProver

  // ----------------------------------------------------------------- the kernels

  /** Running sums. */
  predicate SumsFit(a: seq<int>) {
    forall n :: 0 <= n <= |a| ==> FitsI64(SumN(a, n))
  }

  /** Products and running sums of an inner product. */
  predicate DotFits(a: seq<int>, b: seq<int>)
    requires |a| == |b|
  {
    && (forall n :: 0 <= n < |a| ==> FitsI64(a[n] * b[n]))
    && (forall n :: 0 <= n <= |a| ==> FitsI64(DotN(a, b, n)))
  }

  /** `requantize`: the accumulator, and the rounded quotient with its zero point. */
  predicate RequantFits(n: int, shift: nat, zeroPoint: int, mode: Rounding) {
    FitsI64(n) && ValidShift(shift) && FitsI64(Rescale(n, shift, mode)) && FitsI64(Rescale(n, shift, mode) + zeroPoint)
  }

  /** `round_div`: the dividend and its rounding offset. */
  predicate RoundDivFits(a: int, n: nat) {
    FitsI64(a) && FitsI64(Mag(a) + n / 2)
  }

  /** `eval`: the index computed once `x` is not below the domain. */
  predicate LookupFits(t: ActivationTable, x: int) {
    x >= t.lo ==> FitsI64(x - t.lo)
  }

  predicate LayerNormFits(x: seq<int>, t: ActivationTable, rq: Requant) {
    |x| > 0 ==>
      var c := Centered(x, Mean(x));
      && SumsFit(x) && RoundDivFits(Sum(x), |x|)
      && (forall i :: 0 <= i < |x| ==> FitsI64(c[i]))
      && DotFits(c, c) && RoundDivFits(DotN(c, c, |x|), |x|)
      && LookupFits(t, Variance(x))
      && (t.Eval(Variance(x)).Some? ==>
            forall i :: 0 <= i < |x| ==> RequantFits(c[i] * t.Eval(Variance(x)).value, rq.shift, 0, rq.mode))
  }

  /** Shifted scores, running sums (of a row that fails later, too), scaled entries and quotients. */
  predicate SoftmaxFits(row: seq<int>, t: ActivationTable, one: int) {
    |row| > 0 ==>
      var s := Shifted(row);
      && (forall i :: 0 <= i < |s| ==> FitsI64(s[i]) && LookupFits(t, s[i]))
      && (forall n :: 0 <= n <= |s| && EvalAll(t, s[..n]).Some? ==> FitsI64(Sum(EvalAll(t, s[..n]).value)))
      && (EvalAll(t, s).Some? ==>
            var exps := EvalAll(t, s).value;
            forall i :: 0 <= i < |exps| ==>
              FitsI64(exps[i] * one) && (Sum(exps) != 0 ==> FitsI64(TruncDiv(exps[i] * one, Sum(exps)))))
  }

  /** Chunk after chunk. */
  predicate SoftmaxRowsFit(x: seq<int>, rowLen: nat, t: ActivationTable, one: int)
    requires rowLen > 0
    decreases |x|
  {
    |x| > 0 ==>
      var n := Min(rowLen, |x|);
      SoftmaxFits(x[..n], t, one) && SoftmaxRowsFit(x[n..], rowLen, t, one)
  }

  predicate MatMulFits(a: seq<int>, b: seq<int>, rows: nat, inner: nat, cols: nat, transposeB: bool)
    requires |a| == rows * inner && |b| == cols * inner
  {
    forall i, j :: 0 <= i < rows && 0 <= j < cols ==>
      DotFits(Rows(a, rows, inner)[i], MatMulCol(b, inner, cols, transposeB, j))
  }

  /** One row of inputs through a weight, then the bias. */
  predicate LinearFits(w: seq<int>, x: seq<int>, bias: seq<int>, rows: nat, cols: nat)
    requires |w| == rows * cols && |x| == cols && |bias| == rows
  {
    forall i :: 0 <= i < rows ==>
      i * cols + cols <= |w| && DotFits(Row(w, i, cols), x) && FitsI64(bias[i] + DotN(Row(w, i, cols), x, cols))
  }

  predicate ModulateFits(x: int, scale: int, shift: int, one: int, rq: Requant) {
    && FitsI64(one + scale) && FitsI64(x * (one + scale))
    && RequantFits(x * (one + scale), rq.shift, 0, rq.mode) && FitsI64(Kernels.Modulate(x, scale, shift, one, rq))
  }

  // ----------------------------------------------------------------------- an op

  /** No kernel of the op leaves i64 on these buffers. */
  predicate OpInI64(op: BlockOp, m: P.Bindings, bufs: P.Bufs) {
    match op
    case Linear(_, weightId, biasId, inBuf, _, _) =>
      var w := FindTensor(m.weights, weightId);
      (inBuf in bufs && w.Some? && |w.value.shape| == 2 && |bufs[inBuf]| == w.value.shape[1]) ==>
        var rows, cols := w.value.shape[0], w.value.shape[1];
        MatrixSize(w.value);
        var bias := P.BiasOf(m, biasId, rows);
        bias.Ok? && |bias.value| >= rows ==> LinearFits(w.value.Values(), bufs[inBuf], bias.value[..rows], rows, cols)
    case Requant(_, inBuf, _, _, shift, zeroPoint, _, _, rounding) =>
      (inBuf in bufs && FromDiscriminant(rounding).Some?) ==>
        forall i :: 0 <= i < |bufs[inBuf]| ==>
          RequantFits(bufs[inBuf][i], shift, zeroPoint, FromDiscriminant(rounding).value)
    case Activation(_, tableId, inBuf, _, _) =>
      (inBuf in bufs && FindTable(m.tables, tableId).Some?) ==>
        forall i :: 0 <= i < |bufs[inBuf]| ==> LookupFits(FindTable(m.tables, tableId).value, bufs[inBuf][i])
    case LayerNorm(_, tableId, inBuf, _, _, shift, lo, hi, rounding) =>
      (inBuf in bufs && FindTable(m.tables, tableId).Some? && FromDiscriminant(rounding).Some?) ==>
        LayerNormFits(bufs[inBuf], FindTable(m.tables, tableId).value,
                      Kernels.Requant(shift, lo, hi, FromDiscriminant(rounding).value))
    case Modulate(_, xBuf, scaleBuf, shiftBuf, _, _, one, shift, lo, hi, rounding) =>
      (xBuf in bufs && scaleBuf in bufs && shiftBuf in bufs && FromDiscriminant(rounding).Some?) ==>
        var x, sc, sh := bufs[xBuf], bufs[scaleBuf], bufs[shiftBuf];
        forall i :: 0 <= i < |x| && i < |sc| && i < |sh| ==>
          ModulateFits(x[i], sc[i], sh[i], one, Kernels.Requant(shift, lo, hi, FromDiscriminant(rounding).value))
    case Gate(_, gateBuf, xBuf, _, _, shift, _, _, rounding) =>
      (gateBuf in bufs && xBuf in bufs && FromDiscriminant(rounding).Some?) ==>
        forall i :: 0 <= i < |bufs[gateBuf]| && i < |bufs[xBuf]| ==>
          RequantFits(bufs[gateBuf][i] * bufs[xBuf][i], shift, 0, FromDiscriminant(rounding).value)
    case Add(_, aBuf, bBuf, _, _) =>
      (aBuf in bufs && bBuf in bufs) ==>
        forall i :: 0 <= i < |bufs[aBuf]| && i < |bufs[bBuf]| ==> FitsI64(bufs[aBuf][i] + bufs[bBuf][i])
    case MatMul(_, aBuf, bBuf, _, _, rows, inner, cols, transposeB) =>
      (aBuf in bufs && bBuf in bufs && |bufs[aBuf]| == rows * inner && |bufs[bBuf]| == cols * inner) ==>
        MatMulFits(bufs[aBuf], bufs[bBuf], rows, inner, cols, transposeB)
    case Softmax(_, tableId, inBuf, _, _, rowLen, one) =>
      (inBuf in bufs && FindTable(m.tables, tableId).Some? && rowLen > 0) ==>
        SoftmaxRowsFit(bufs[inBuf], rowLen, FindTable(m.tables, tableId).value, one)
    case Slice(_, _, _, _, _, _) => true
    case Concat(_, _, _, _) => true
    case BatchedLinear(_, weightId, biasId, inBuf, _, _, seqLen) =>
      var w := FindTensor(m.weights, weightId);
      (inBuf in bufs && w.Some? && |w.value.shape| == 2 && |bufs[inBuf]| == seqLen * w.value.shape[1]) ==>
        var rows, cols := w.value.shape[0], w.value.shape[1];
        MatrixSize(w.value);
        var bias := P.BiasOf(m, biasId, rows);
        bias.Ok? && |bias.value| >= rows ==>
          forall t :: 0 <= t < seqLen ==>
            LinearFits(w.value.Values(), Rows(bufs[inBuf], seqLen, cols)[t], bias.value[..rows], rows, cols)
  }

  /** No op of the run leaves i64 on the buffers it runs on. */
  predicate RunInI64(ops: seq<BlockOp>, m: P.Bindings, bufs: P.Bufs) {
    |ops| > 0 ==>
      var n := |ops| - 1;
      && RunInI64(ops[..n], m, bufs)
      && (P.ProveOps(ops[..n], m, bufs).Ok? ==> OpInI64(ops[n], m, P.ProveOps(ops[..n], m, bufs).value.1))
  }
}
