/**
 * A range analysis of op lists: every buffer gets a magnitude bound, and the rows that
 * are normalized a length bound. An op list it passes never leaves i64 and its honest
 * outputs never leave the verifier's guards.
 */
module Ranges {
  import opened Wrappers
  import opened Arith
  import opened Matrix
  import opened FixedPoint
  import opened Kernels
  import opened Tensors
  import opened Freivalds
  import opened Soundness
  import opened Blocks
  import opened Field
  import opened Overflow
  import P = BlockProver
  import V = BlockVerifier
  import A = BlockAudit

  // ------------------------------------------------------------------- the analysis

  /** No entry larger than `mag` in magnitude; no more entries than `len`, where known. */
  datatype Bound = Bound(mag: nat, len: Option<nat>)

  type Bounds = map<nat, Bound>

  predicate MagIn(v: seq<int>, mag: int) { AllIn(v, -mag, mag) }

  predicate Within(v: seq<int>, r: Bound) {
    MagIn(v, r.mag) && (r.len.Some? ==> |v| <= r.len.value)
  }

  /** Every bounded buffer exists and is within its bound. */
  predicate Describes(rs: Bounds, bufs: P.Bufs) {
    forall id :: id in rs ==> id in bufs && Within(bufs[id], rs[id])
  }

  function MaxMag(s: seq<int>): (r: nat)
    ensures forall i :: 0 <= i < |s| ==> Mag(s[i]) <= r
  {
    if |s| == 0 then 0
    else if Mag(s[|s| - 1]) > MaxMag(s[..|s| - 1]) then Mag(s[|s| - 1]) else MaxMag(s[..|s| - 1])
  }

  function Look(rs: Bounds, id: nat): Option<Bound> {
    if id in rs then Some(rs[id]) else None
  }

  function Ensure(ok: bool): Option<()> { if ok then Some(()) else None }

  /** Normalizing up to `n` entries of magnitude `mag`. */
  predicate LayerNormCap(n: nat, mag: nat, t: ActivationTable) {
    && n * mag + n <= I64_MAX
    && n * ((2 * mag) * (2 * mag)) + n <= I64_MAX
    && 2 * mag * MaxMag(t.outputs) <= I64_MAX
    && (2 * mag) * (2 * mag) + Mag(t.lo) <= I64_MAX
  }

  predicate SoftmaxCap(n: nat, mag: nat, t: ActivationTable, one: int) {
    && Nonnegative(t) && one >= 0
    && 2 * mag + Mag(t.lo) <= I64_MAX
    && n * MaxMag(t.outputs) <= I64_MAX && MaxMag(t.outputs) * one <= I64_MAX && one <= I64_MAX
  }

  /** A weight of `rows` by `cols` int8 entries on inputs of magnitude `mag`. */
  predicate LinearCap(cols: nat, mag: nat) {
    DimsWithinSoundnessMargin(cols) && mag <= OPERAND_BOUND && cols * (128 * mag) <= OPERAND_BOUND
  }

  function ConcatBound(rs: Bounds, ids: seq<nat>): Option<nat> {
    if |ids| == 0 then Some(0)
    else
      var init :- ConcatBound(rs, ids[..|ids| - 1]);
      var last :- Look(rs, ids[|ids| - 1]);
      Some(if last.mag > init then last.mag else init)
  }

  /** The bound of an op's output, or None where the analysis gives up. */
  function Infer(op: BlockOp, m: P.Bindings, rs: Bounds): Option<Bound> {
    match op
    case Requant(_, inBuf, _, _, shift, zeroPoint, lo, hi, _) =>
      var x :- Look(rs, inBuf);
      var _ :- Ensure(ValidShift(shift) && x.mag + Mag(zeroPoint) <= I64_MAX && lo <= hi);
      Some(Bound(MaxMag([lo, hi]), None))
    case Activation(_, tableId, inBuf, _, _) =>
      var x :- Look(rs, inBuf);
      var t :- FindTable(m.tables, tableId);
      var _ :- Ensure(x.mag + Mag(t.lo) <= I64_MAX);
      Some(Bound(MaxMag(t.outputs), None))
    case LayerNorm(_, tableId, inBuf, _, _, shift, lo, hi, _) =>
      var x :- Look(rs, inBuf);
      var t :- FindTable(m.tables, tableId);
      var n :- x.len;
      var _ :- Ensure(ValidShift(shift) && lo <= hi && LayerNormCap(n, x.mag, t));
      Some(Bound(MaxMag([lo, hi]), None))
    case Modulate(_, xBuf, scaleBuf, shiftBuf, _, _, one, shift, lo, hi, _) =>
      var x :- Look(rs, xBuf);
      var sc :- Look(rs, scaleBuf);
      var sh :- Look(rs, shiftBuf);
      var _ :- Ensure(ValidShift(shift) && lo <= hi && Mag(one) + sc.mag <= I64_MAX
                      && x.mag * (Mag(one) + sc.mag) <= I64_MAX && MaxMag([lo, hi]) + sh.mag <= I64_MAX);
      Some(Bound(MaxMag([lo, hi]) + sh.mag, None))
    case Gate(_, gateBuf, xBuf, _, _, shift, lo, hi, _) =>
      var g :- Look(rs, gateBuf);
      var x :- Look(rs, xBuf);
      var _ :- Ensure(ValidShift(shift) && lo <= hi && g.mag * x.mag <= I64_MAX);
      Some(Bound(MaxMag([lo, hi]), None))
    case Add(_, aBuf, bBuf, _, _) =>
      var a :- Look(rs, aBuf);
      var b :- Look(rs, bBuf);
      var _ :- Ensure(a.mag + b.mag <= I64_MAX);
      Some(Bound(a.mag + b.mag, None))
    case MatMul(_, aBuf, bBuf, _, _, _, inner, _, _) =>
      var a :- Look(rs, aBuf);
      var b :- Look(rs, bBuf);
      MulMono(0, a.mag, b.mag);
      MulMono(0, inner, a.mag * b.mag);
      var _ :- Ensure(inner * (a.mag * b.mag) <= I64_MAX && a.mag * b.mag <= I64_MAX);
      Some(Bound(inner * (a.mag * b.mag), None))
    case Softmax(_, tableId, inBuf, _, _, rowLen, one) =>
      var x :- Look(rs, inBuf);
      var t :- FindTable(m.tables, tableId);
      var _ :- Ensure(SoftmaxCap(rowLen, x.mag, t, one));
      Some(Bound(one, None))
    case Slice(_, inBuf, _, _, len, _) =>
      var x :- Look(rs, inBuf);
      Some(Bound(x.mag, Some(len)))
    case Concat(_, inBufs, _, _) =>
      var mag :- ConcatBound(rs, inBufs);
      Some(Bound(mag, None))
    case BatchedLinear(_, weightId, biasId, inBuf, _, _, _) =>
      var x :- Look(rs, inBuf);
      var w :- FindTensor(m.weights, weightId);
      var _ :- Ensure(biasId.None? && |w.shape| == 2 && Int8(w.Values()) && LinearCap(w.shape[1], x.mag));
      MulMono(0, w.shape[1], 128 * x.mag);
      Some(Bound(w.shape[1] * (128 * x.mag), None))
    case Linear(_, _, _, _, _, _) => None
  }

  function InferAll(ops: seq<BlockOp>, m: P.Bindings, rs: Bounds): Option<Bounds> {
    if |ops| == 0 then Some(rs)
    else
      var n := |ops| - 1;
      var rs' :- InferAll(ops[..n], m, rs);
      var r :- Infer(ops[n], m, rs');
      Some(rs'[ops[n].outBuf := r])
  }

  // ------------------------------------------------------------------ kernel by kernel

  lemma QuotientShrinks(n: nat, d: nat, q: int, rem: int)
    requires d > 0 && n == q * d + rem && 0 <= rem < d
    ensures 0 <= q <= n && (rem != 0 ==> q + 1 <= n)
  {
    if q < 0 { MulMono(q, -1, d); }
    MulMono(1, d, q);
    if rem != 0 { MulMono(2, d, q); }
  }

  lemma RescaleShrinks(n: int, r: nat, mode: Rounding)
    ensures Mag(Rescale(n, r, mode)) <= Mag(n)
    decreases n < 0
  {
    if n < 0 {
      RescaleShrinks(-n, r, mode);
      RescaleIsOdd(n, r, mode);
    } else {
      var s := SplitPow2(n, r);
      QuotientShrinks(n, Pow2(r), s.q, s.rem);
    }
  }

  lemma RequantCap(n: int, shift: nat, zeroPoint: int, mode: Rounding)
    requires ValidShift(shift) && Mag(n) + Mag(zeroPoint) <= I64_MAX
    ensures RequantFits(n, shift, zeroPoint, mode)
  {
    RescaleShrinks(n, shift, mode);
  }

  lemma ClampMag(n: int, r: nat, zeroPoint: int, lo: int, hi: int, mode: Rounding)
    requires lo <= hi
    ensures Mag(Requantize(n, r, zeroPoint, lo, hi, mode)) <= MaxMag([lo, hi])
  {
    assert Mag([lo, hi][0]) <= MaxMag([lo, hi]) && Mag([lo, hi][1]) <= MaxMag([lo, hi]);
  }

  lemma SumsCap(x: seq<int>, n: nat, mag: nat)
    requires |x| <= n && MagIn(x, mag) && n * mag <= I64_MAX
    ensures SumsFit(x) && Mag(Sum(x)) <= n * mag
  {
    forall k | 0 <= k <= |x| ensures Mag(SumN(x, k)) <= n * mag {
      SumNBound(x, k, 0 - mag, mag);
      MulMono(k, n, mag);
      assert k * (0 - mag) == 0 - k * mag;
    }
  }

  lemma DotCap(a: seq<int>, b: seq<int>, n: nat, A: nat, B: nat)
    requires |a| == |b| <= n && MagIn(a, A) && MagIn(b, B)
    requires A * B <= I64_MAX && n * (A * B) <= I64_MAX
    ensures DotFits(a, b) && Mag(DotN(a, b, |a|)) <= n * (A * B)
  {
    MulMono(0, A, B);
    forall k | 0 <= k < |a| ensures FitsI64(a[k] * b[k]) { MulBound(a[k], b[k], A, B); }
    forall k | 0 <= k <= |a| ensures Mag(DotN(a, b, k)) <= n * (A * B) {
      DotNBound(a, b, k, A, B);
      MulMono(k, n, A * B);
    }
  }

  lemma LookupCap(t: ActivationTable, x: int, mag: nat)
    requires Mag(x) <= mag && mag + Mag(t.lo) <= I64_MAX
    ensures LookupFits(t, x)
  {
  }

  lemma EvalMag(t: ActivationTable, x: int)
    requires t.Eval(x).Some?
    ensures Mag(t.Eval(x).value) <= MaxMag(t.outputs)
  {
    assert t.Eval(x).value == t.outputs[x - t.lo];
  }

  lemma CenteredIn(x: seq<int>, mag: nat)
    requires |x| > 0 && MagIn(x, mag)
    ensures MagIn(Centered(x, Mean(x)), 2 * mag)
    ensures 0 <= Variance(x) <= (2 * mag) * (2 * mag)
  {
    VarianceBound(x, 0 - mag, mag);
    assert mag - (0 - mag) == 2 * mag;
    hide Mean, Variance;
  }

  lemma ScaledInRange(c: seq<int>, inv: int, rq: Kernels.Requant, width: nat, cap: nat)
    requires MagIn(c, width) && Mag(inv) <= cap && width * cap <= I64_MAX && ValidShift(rq.shift)
    ensures forall i :: 0 <= i < |c| ==> RequantFits(c[i] * inv, rq.shift, 0, rq.mode)
  {
    forall i | 0 <= i < |c| ensures RequantFits(c[i] * inv, rq.shift, 0, rq.mode) {
      MulBound(c[i], inv, width, cap);
      RequantCap(c[i] * inv, rq.shift, 0, rq.mode);
    }
  }

  lemma RoundDivInRange(a: int, k: nat, n: nat, cap: nat)
    requires Mag(a) <= cap && k <= n && cap + n <= I64_MAX
    ensures RoundDivFits(a, k)
  {
  }

  lemma SquaresInRange(c: seq<int>, n: nat, w: nat)
    requires 0 < |c| <= n && MagIn(c, w) && n * (w * w) + n <= I64_MAX
    ensures DotFits(c, c) && RoundDivFits(DotN(c, c, |c|), |c|) && w * w <= I64_MAX
    ensures forall i :: 0 <= i < |c| ==> FitsI64(c[i])
  {
    MulMono(0, w, w);
    MulMono(1, n, w * w);
    DotCap(c, c, n, w, w);
    RoundDivInRange(DotN(c, c, |c|), |c|, n, n * (w * w));
    if w > 0 { MulMono(1, w, w); }
  }

  lemma MeanInRange(x: seq<int>, n: nat, mag: nat)
    requires 0 < |x| <= n && MagIn(x, mag) && n * mag + n <= I64_MAX
    ensures SumsFit(x) && RoundDivFits(Sum(x), |x|)
  {
    MulMono(0, n, mag);
    SumsCap(x, n, mag);
    RoundDivInRange(Sum(x), |x|, n, n * mag);
  }

  lemma InverseInRange(x: seq<int>, t: ActivationTable, rq: Kernels.Requant, mag: nat)
    requires |x| > 0 && MagIn(x, mag) && ValidShift(rq.shift)
    requires 2 * mag * MaxMag(t.outputs) <= I64_MAX && (2 * mag) * (2 * mag) + Mag(t.lo) <= I64_MAX
    ensures LookupFits(t, Variance(x))
    ensures t.Eval(Variance(x)).Some? ==>
              forall i :: 0 <= i < |x| ==>
                RequantFits(Centered(x, Mean(x))[i] * t.Eval(Variance(x)).value, rq.shift, 0, rq.mode)
  {
    var v, w := Variance(x), 2 * mag;
    CenteredIn(x, mag);
    MulMono(0, w, w);
    hide Variance, Mean, MaxMag, RequantFits;
    LookupCap(t, v, w * w);
    if t.Eval(v).Some? {
      EvalMag(t, v);
      ScaledInRange(Centered(x, Mean(x)), t.Eval(v).value, rq, w, MaxMag(t.outputs));
    }
  }

  lemma LayerNormInRange(x: seq<int>, t: ActivationTable, rq: Kernels.Requant, n: nat, mag: nat)
    requires |x| <= n && MagIn(x, mag) && LayerNormCap(n, mag, t) && ValidShift(rq.shift)
    ensures LayerNormFits(x, t, rq)
  {
    hide Variance, Mean, Sum, DotN, SumsFit, DotFits, RequantFits, MaxMag, RoundDivFits, LookupFits, MagIn;
    if |x| > 0 {
      CenteredIn(x, mag);
      MeanInRange(x, n, mag);
      SquaresInRange(Centered(x, Mean(x)), n, 2 * mag);
      InverseInRange(x, t, rq, mag);
    }
  }

  lemma ExpsInRange(xs: seq<int>, t: ActivationTable) returns (exps: seq<int>)
    requires EvalAll(t, xs).Some?
    ensures EvalAll(t, xs) == Some(exps) && |exps| == |xs|
    ensures MagIn(exps, MaxMag(t.outputs)) && (Nonnegative(t) ==> AllIn(exps, 0, MaxMag(t.outputs)))
  {
    exps := EvalAll(t, xs).value;
    forall i | 0 <= i < |exps|
      ensures Mag(exps[i]) <= MaxMag(t.outputs) && (Nonnegative(t) ==> exps[i] >= 0)
    {
      EvalAllAt(t, xs, i);
      EvalMag(t, xs[i]);
    }
  }

  lemma RunningInRange(xs: seq<int>, t: ActivationTable, n: nat)
    requires EvalAll(t, xs).Some? && |xs| <= n && 0 <= n * MaxMag(t.outputs) <= I64_MAX
    ensures FitsI64(Sum(EvalAll(t, xs).value))
  {
    var exps := ExpsInRange(xs, t);
    SumsCap(exps, n, MaxMag(t.outputs));
  }

  lemma ShareFits(e: int, one: int, total: int, cap: nat)
    requires 0 <= e <= cap && one >= 0 && cap * one <= I64_MAX && total > 0
    ensures FitsI64(e * one) && FitsI64(TruncDiv(e * one, total))
  {
    MulMono(0, e, one);
    MulMono(e, cap, one);
    FloorBounds(e * one, total);
    MulMono(1, total, e * one / total);
  }

  lemma SoftmaxInRange(row: seq<int>, t: ActivationTable, one: int, n: nat, mag: nat)
    requires |row| <= n && MagIn(row, mag) && SoftmaxCap(n, mag, t, one)
    ensures SoftmaxFits(row, t, one)
    ensures Kernels.Softmax(row, t, one).Some? ==> MagIn(Kernels.Softmax(row, t, one).value, one)
  {
    if |row| > 0 {
      var s := Shifted(row);
      forall k | 0 <= k <= |s| && EvalAll(t, s[..k]).Some? ensures FitsI64(Sum(EvalAll(t, s[..k]).value)) {
        RunningInRange(s[..k], t, n);
      }
      if EvalAll(t, s).Some? {
        var exps := ExpsInRange(s, t);
        SumNonneg(exps, |exps|);
        forall i | 0 <= i < |exps|
          ensures FitsI64(exps[i] * one) && (Sum(exps) != 0 ==> FitsI64(TruncDiv(exps[i] * one, Sum(exps))))
        {
          ShareFits(exps[i], one, if Sum(exps) > 0 then Sum(exps) else 1, MaxMag(t.outputs));
        }
        if Sum(exps) != 0 { SoftmaxMass(row, t, one); }
      }
    }
  }

  lemma {:induction false} ChunksInRange(out: seq<int>, x: seq<int>, rowLen: nat, t: ActivationTable, one: int,
                                         mag: nat)
    requires rowLen > 0 && MagIn(x, mag) && SoftmaxCap(rowLen, mag, t, one) && MagIn(out, one)
    ensures SoftmaxRowsFit(x, rowLen, t, one)
    ensures SoftmaxChunks(out, x, rowLen, t, one).Some? ==> MagIn(SoftmaxChunks(out, x, rowLen, t, one).value, one)
    decreases |x|
  {
    hide SoftmaxFits, Kernels.Softmax, SoftmaxCap;
    if |x| > 0 {
      var n := Min(rowLen, |x|);
      SoftmaxShorter(n, rowLen, mag, t, one);
      SoftmaxInRange(x[..n], t, one, n, mag);
      var first := Kernels.Softmax(x[..n], t, one);
      if first.Some? {
        ChunksInRange(out + first.value, x[n..], rowLen, t, one, mag);
      } else {
        ChunksInRange(out, x[n..], rowLen, t, one, mag);
      }
    }
  }

  lemma SoftmaxShorter(k: nat, n: nat, mag: nat, t: ActivationTable, one: int)
    requires k <= n && SoftmaxCap(n, mag, t, one)
    ensures SoftmaxCap(k, mag, t, one)
  {
    MulMono(k, n, MaxMag(t.outputs));
  }

  lemma FlattenIn(m: Mat, lo: int, hi: int)
    requires forall p :: 0 <= p < |m| ==> AllIn(m[p], lo, hi)
    ensures AllIn(Flatten(m), lo, hi)
  {
  }

  lemma RowIn(x: seq<int>, s: nat, cols: nat, t: nat, lo: int, hi: int)
    requires |x| == s * cols && t < s && AllIn(x, lo, hi)
    ensures AllIn(Rows(x, s, cols)[t], lo, hi)
  {
    FlattenRows(x, s, cols);
    FlattenRow(Rows(x, s, cols), s, cols, t);
  }

  lemma ColumnIn(b: seq<int>, inner: nat, cols: nat, transposeB: bool, j: nat, B: nat)
    requires |b| == cols * inner && MagIn(b, B) && j < cols
    ensures MagIn(MatMulCol(b, inner, cols, transposeB, j), B)
  {
    forall k | 0 <= k < inner ensures Mag(MatMulEntry(b, inner, cols, transposeB, j, k)) <= B {
      RowBounds(j, cols, inner);
      RowBounds(k, inner, cols);
    }
    hide MatMulEntry;
  }

  /** Entry by entry: products and sums fit, and the entry is bounded. */
  lemma EntryInRange(a: seq<int>, b: seq<int>, rows: nat, inner: nat, cols: nat, transposeB: bool, A: nat, B: nat,
                     i: nat, j: nat)
    requires |a| == rows * inner && |b| == cols * inner && MagIn(a, A) && MagIn(b, B) && i < rows && j < cols
    requires A * B <= I64_MAX && 0 <= inner * (A * B) <= I64_MAX
    ensures DotFits(Rows(a, rows, inner)[i], MatMulCol(b, inner, cols, transposeB, j))
    ensures Mag(DotN(Rows(a, rows, inner)[i], MatMulCol(b, inner, cols, transposeB, j), inner)) <= inner * (A * B)
  {
    hide Rows, MatMulCol, DotFits, DotN;
    RowIn(a, rows, inner, i, 0 - A, A);
    ColumnIn(b, inner, cols, transposeB, j, B);
    var row, col := Rows(a, rows, inner)[i], MatMulCol(b, inner, cols, transposeB, j);
    DotCap(row, col, inner, A, B);
  }

  lemma MatMulInRange(a: seq<int>, b: seq<int>, rows: nat, inner: nat, cols: nat, transposeB: bool, A: nat, B: nat)
    requires |a| == rows * inner && |b| == cols * inner && MagIn(a, A) && MagIn(b, B)
    requires A * B <= I64_MAX && 0 <= inner * (A * B) <= I64_MAX
    ensures MatMulFits(a, b, rows, inner, cols, transposeB)
    ensures var cap := inner * (A * B); MagIn(Kernels.MatMul(a, b, rows, inner, cols, transposeB).value, cap)
  {
    hide DotFits, Rows, DotN, MatMulCol, Flatten;
    var cap := inner * (A * B);
    var am := Rows(a, rows, inner);
    forall i, j | 0 <= i < rows && 0 <= j < cols
      ensures DotFits(am[i], MatMulCol(b, inner, cols, transposeB, j))
           && Mag(DotN(am[i], MatMulCol(b, inner, cols, transposeB, j), inner)) <= cap
    {
      EntryInRange(a, b, rows, inner, cols, transposeB, A, B, i, j);
    }
    FlattenIn(MatMulMat(am, b, inner, cols, transposeB), 0 - cap, cap);
  }

  lemma LinearInRange(w: seq<int>, x: seq<int>, rows: nat, cols: nat, mag: nat)
    requires |w| == rows * cols && |x| == cols && Int8(w) && MagIn(x, mag) && LinearCap(cols, mag)
    ensures LinearFits(w, x, Zeros(rows), rows, cols)
    ensures var cap := cols * (128 * mag); MagIn(Kernels.Linear(w, x, Zeros(rows), rows, cols), cap)
  {
    var cap := cols * (128 * mag);
    forall i | 0 <= i < rows
      ensures i * cols + cols <= |w| && DotFits(Row(w, i, cols), x) && Mag(DotN(Row(w, i, cols), x, cols)) <= cap
    {
      RowBounds(i, rows, cols);
      DotCap(Row(w, i, cols), x, cols, 128, mag);
    }
  }

  lemma LinearRowsInRange(w: seq<int>, x: seq<int>, s: nat, rows: nat, cols: nat, mag: nat)
    requires |w| == rows * cols && |x| == s * cols && Int8(w) && MagIn(x, mag) && LinearCap(cols, mag)
    ensures forall t :: 0 <= t < s ==> LinearFits(w, Rows(x, s, cols)[t], Zeros(rows), rows, cols)
    ensures var cap := cols * (128 * mag); MagIn(LinearRows(w, x, Zeros(rows), s, rows, cols), cap)
  {
    hide LinearFits, LinearCap;
    var xm := Rows(x, s, cols);
    var cap := cols * (128 * mag);
    forall t | 0 <= t < s
      ensures LinearFits(w, xm[t], Zeros(rows), rows, cols)
              && MagIn(Kernels.Linear(w, xm[t], Zeros(rows), rows, cols), cap)
    {
      RowIn(x, s, cols, t, 0 - mag, mag);
      LinearInRange(w, xm[t], rows, cols, mag);
    }
    FlattenIn(LinearMat(w, xm, Zeros(rows), rows, cols), 0 - cap, cap);
  }

  lemma {:induction false} ConcatWithin(rs: Bounds, bufs: P.Bufs, ids: seq<nat>)
    requires Describes(rs, bufs) && ConcatBound(rs, ids).Some? && P.ConcatBufs(bufs, ids).Ok?
    ensures var mag := ConcatBound(rs, ids).value; MagIn(P.ConcatBufs(bufs, ids).value, mag)
  {
    if |ids| > 0 {
      ConcatWithin(rs, bufs, ids[..|ids| - 1]);
      assert Within(bufs[ids[|ids| - 1]], rs[ids[|ids| - 1]]);
    }
  }

  // --------------------------------------------------------------------- op by op

  /** What the analysis promises of one op. */
  ghost predicate Promised(op: BlockOp, m: P.Bindings, rs: Bounds, bufs: P.Bufs, out: seq<int>)
    requires Infer(op, m, rs).Some?
  {
    OpInI64(op, m, bufs) && Within(out, Infer(op, m, rs).value) && A.InsideGuards(op.SetOut(out), m, bufs)
  }

  lemma RequantSound(op: BlockOp, m: P.Bindings, rs: Bounds, bufs: P.Bufs, out: seq<int>)
    requires op.Requant? && Describes(rs, bufs) && Infer(op, m, rs).Some? && P.ProveOp(op, m, bufs) == Ok(out)
    ensures Promised(op, m, rs, bufs, out)
  {
    var x, mode := bufs[op.inBuf], FromDiscriminant(op.rounding).value;
    assert Within(x, rs[op.inBuf]);
    forall i | 0 <= i < |x|
      ensures RequantFits(x[i], op.shift, op.zeroPoint, mode) && Mag(out[i]) <= MaxMag([op.clampLo, op.clampHi])
    {
      RequantCap(x[i], op.shift, op.zeroPoint, mode);
      ClampMag(x[i], op.shift, op.zeroPoint, op.clampLo, op.clampHi, mode);
    }
    hide RequantFits, MaxMag, Requantize;
  }

  lemma ActivationSound(op: BlockOp, m: P.Bindings, rs: Bounds, bufs: P.Bufs, out: seq<int>)
    requires op.Activation? && Describes(rs, bufs) && Infer(op, m, rs).Some? && P.ProveOp(op, m, bufs) == Ok(out)
    ensures Promised(op, m, rs, bufs, out)
  {
    var x, t := bufs[op.inBuf], FindTable(m.tables, op.tableId).value;
    assert Within(x, rs[op.inBuf]);
    hide EvalAll, MaxMag;
    forall i | 0 <= i < |x| ensures LookupFits(t, x[i]) && Mag(out[i]) <= MaxMag(t.outputs) {
      LookupCap(t, x[i], rs[op.inBuf].mag);
      EvalAllAt(t, x, i);
      EvalMag(t, x[i]);
    }
  }

  lemma LayerNormSound(op: BlockOp, m: P.Bindings, rs: Bounds, bufs: P.Bufs, out: seq<int>)
    requires op.LayerNorm? && Describes(rs, bufs) && Infer(op, m, rs).Some? && P.ProveOp(op, m, bufs) == Ok(out)
    ensures Promised(op, m, rs, bufs, out)
  {
    var x, t := bufs[op.inBuf], FindTable(m.tables, op.tableId).value;
    var rq := Kernels.Requant(op.shift, op.clampLo, op.clampHi, FromDiscriminant(op.rounding).value);
    assert Within(x, rs[op.inBuf]);
    LayerNormInRange(x, t, rq, rs[op.inBuf].len.value, rs[op.inBuf].mag);
    hide LayerNormFits, LayerNormCap, Mean, Variance, MaxMag;
    forall i | 0 <= i < |out| ensures Mag(out[i]) <= MaxMag([op.clampLo, op.clampHi]) {
      var inv := t.Eval(Variance(x)).value;
      ClampMag(Centered(x, Mean(x))[i] * inv, op.shift, 0, op.clampLo, op.clampHi, rq.mode);
    }
  }

  lemma ModulateInRange(x: int, sc: int, sh: int, one: int, rq: Kernels.Requant, X: nat, S: nat, H: nat)
    requires Mag(x) <= X && Mag(sc) <= S && Mag(sh) <= H && ValidShift(rq.shift) && rq.lo <= rq.hi
    requires Mag(one) + S <= I64_MAX && X * (Mag(one) + S) <= I64_MAX && MaxMag([rq.lo, rq.hi]) + H <= I64_MAX
    ensures ModulateFits(x, sc, sh, one, rq) && Mag(Kernels.Modulate(x, sc, sh, one, rq)) <= MaxMag([rq.lo, rq.hi]) + H
  {
    MulBound(x, one + sc, X, Mag(one) + S);
    RequantCap(x * (one + sc), rq.shift, 0, rq.mode);
    ClampMag(x * (one + sc), rq.shift, 0, rq.lo, rq.hi, rq.mode);
    hide MaxMag, Requantize, RequantFits;
  }

  lemma ModulateSound(op: BlockOp, m: P.Bindings, rs: Bounds, bufs: P.Bufs, out: seq<int>)
    requires op.Modulate? && Describes(rs, bufs) && Infer(op, m, rs).Some? && P.ProveOp(op, m, bufs) == Ok(out)
    ensures Promised(op, m, rs, bufs, out)
  {
    var x, sc, sh := bufs[op.xBuf], bufs[op.scaleBuf], bufs[op.shiftBuf];
    var rx, rsc, rsh := rs[op.xBuf], rs[op.scaleBuf], rs[op.shiftBuf];
    var rq := Kernels.Requant(op.shift, op.clampLo, op.clampHi, FromDiscriminant(op.rounding).value);
    assert Within(x, rx) && Within(sc, rsc) && Within(sh, rsh);
    hide MaxMag, ModulateFits, Kernels.Modulate;
    forall i | 0 <= i < |x| && i < |sc| && i < |sh|
      ensures ModulateFits(x[i], sc[i], sh[i], op.one, rq) && Mag(out[i]) <= MaxMag([op.clampLo, op.clampHi]) + rsh.mag
    {
      ModulateInRange(x[i], sc[i], sh[i], op.one, rq, rx.mag, rsc.mag, rsh.mag);
    }
  }

  lemma GateSound(op: BlockOp, m: P.Bindings, rs: Bounds, bufs: P.Bufs, out: seq<int>)
    requires op.Gate? && Describes(rs, bufs) && Infer(op, m, rs).Some? && P.ProveOp(op, m, bufs) == Ok(out)
    ensures Promised(op, m, rs, bufs, out)
  {
    var g, x := bufs[op.gateBuf], bufs[op.xBuf];
    var mode := FromDiscriminant(op.rounding).value;
    assert Within(g, rs[op.gateBuf]) && Within(x, rs[op.xBuf]);
    hide MaxMag, RequantFits, Requantize;
    forall i | 0 <= i < |g| && i < |x|
      ensures RequantFits(g[i] * x[i], op.shift, 0, mode) && Mag(out[i]) <= MaxMag([op.clampLo, op.clampHi])
    {
      MulBound(g[i], x[i], rs[op.gateBuf].mag, rs[op.xBuf].mag);
      RequantCap(g[i] * x[i], op.shift, 0, mode);
      ClampMag(g[i] * x[i], op.shift, 0, op.clampLo, op.clampHi, mode);
    }
  }

  lemma AddSound(op: BlockOp, m: P.Bindings, rs: Bounds, bufs: P.Bufs, out: seq<int>)
    requires op.Add? && Describes(rs, bufs) && Infer(op, m, rs).Some? && P.ProveOp(op, m, bufs) == Ok(out)
    ensures Promised(op, m, rs, bufs, out)
  {
    assert Within(bufs[op.aBuf], rs[op.aBuf]) && Within(bufs[op.bBuf], rs[op.bBuf]);
  }

  lemma MatMulSound(op: BlockOp, m: P.Bindings, rs: Bounds, bufs: P.Bufs, out: seq<int>)
    requires op.MatMul? && Describes(rs, bufs) && Infer(op, m, rs).Some? && P.ProveOp(op, m, bufs) == Ok(out)
    ensures Promised(op, m, rs, bufs, out)
  {
    var a, b := bufs[op.aBuf], bufs[op.bBuf];
    var ra, rb := rs[op.aBuf], rs[op.bBuf];
    assert Within(a, ra) && Within(b, rb);
    MulMono(0, ra.mag, rb.mag);
    MulMono(0, op.inner, ra.mag * rb.mag);
    MatMulInRange(a, b, op.rows, op.inner, op.cols, op.transposeB, ra.mag, rb.mag);
    hide MatMulFits, Flatten;
  }

  lemma SoftmaxSound(op: BlockOp, m: P.Bindings, rs: Bounds, bufs: P.Bufs, out: seq<int>)
    requires op.Softmax? && Describes(rs, bufs) && Infer(op, m, rs).Some? && P.ProveOp(op, m, bufs) == Ok(out)
    ensures Promised(op, m, rs, bufs, out)
  {
    var x, t := bufs[op.inBuf], FindTable(m.tables, op.tableId).value;
    assert Within(x, rs[op.inBuf]);
    ChunksInRange([], x, op.rowLen, t, op.one, rs[op.inBuf].mag);
    hide SoftmaxRowsFit, SoftmaxChunks, MaxMag;
  }

  lemma SliceSound(op: BlockOp, m: P.Bindings, rs: Bounds, bufs: P.Bufs, out: seq<int>)
    requires op.Slice? && Describes(rs, bufs) && Infer(op, m, rs).Some? && P.ProveOp(op, m, bufs) == Ok(out)
    ensures Promised(op, m, rs, bufs, out)
  {
    assert Within(bufs[op.inBuf], rs[op.inBuf]);
  }

  lemma ConcatSound(op: BlockOp, m: P.Bindings, rs: Bounds, bufs: P.Bufs, out: seq<int>)
    requires op.Concat? && Describes(rs, bufs) && Infer(op, m, rs).Some? && P.ProveOp(op, m, bufs) == Ok(out)
    ensures Promised(op, m, rs, bufs, out)
  {
    ConcatWithin(rs, bufs, op.inBufs);
    hide P.ConcatBufs, ConcatBound;
  }

  lemma BatchedSound(op: BlockOp, m: P.Bindings, rs: Bounds, bufs: P.Bufs, out: seq<int>)
    requires op.BatchedLinear? && Describes(rs, bufs) && Infer(op, m, rs).Some? && P.ProveOp(op, m, bufs) == Ok(out)
    ensures Promised(op, m, rs, bufs, out)
  {
    var x, t := bufs[op.inBuf], FindTensor(m.weights, op.weightId).value;
    MatrixSize(t);
    var w, rows, cols := t.Values(), t.shape[0], t.shape[1];
    assert Within(x, rs[op.inBuf]);
    assert Zeros(rows)[..rows] == Zeros(rows);
    MulMono(0, cols, 128 * rs[op.inBuf].mag);
    LinearRowsInRange(w, x, op.seqLen, rows, cols, rs[op.inBuf].mag);
    hide LinearFits, LinearRows, Rows;
  }

  /** One op: no overflow, a bounded output, and an honest claim inside the guards. */
  lemma InferSound(op: BlockOp, m: P.Bindings, rs: Bounds, bufs: P.Bufs, out: seq<int>)
    requires Describes(rs, bufs) && Infer(op, m, rs).Some? && P.ProveOp(op, m, bufs) == Ok(out)
    ensures Promised(op, m, rs, bufs, out)
  {
    hide Describes, Promised, P.ProveOp;
    match op
    case Linear(_, _, _, _, _, _) => assert false;
    case Requant(_, _, _, _, _, _, _, _, _) => RequantSound(op, m, rs, bufs, out);
    case Activation(_, _, _, _, _) => ActivationSound(op, m, rs, bufs, out);
    case LayerNorm(_, _, _, _, _, _, _, _, _) => LayerNormSound(op, m, rs, bufs, out);
    case Modulate(_, _, _, _, _, _, _, _, _, _, _) => ModulateSound(op, m, rs, bufs, out);
    case Gate(_, _, _, _, _, _, _, _, _) => GateSound(op, m, rs, bufs, out);
    case Add(_, _, _, _, _) => AddSound(op, m, rs, bufs, out);
    case MatMul(_, _, _, _, _, _, _, _, _) => MatMulSound(op, m, rs, bufs, out);
    case Softmax(_, _, _, _, _, _, _) => SoftmaxSound(op, m, rs, bufs, out);
    case Slice(_, _, _, _, _, _) => SliceSound(op, m, rs, bufs, out);
    case Concat(_, _, _, _) => ConcatSound(op, m, rs, bufs, out);
    case BatchedLinear(_, _, _, _, _, _, _) => BatchedSound(op, m, rs, bufs, out);
  }

  // ------------------------------------------------------------------------- runs

  /** A filled block run again is itself. */
  lemma Reproduced(ops: seq<BlockOp>, m: P.Bindings, bufs: P.Bufs, filled: seq<BlockOp>, final: P.Bufs)
    requires P.ProveOps(ops, m, bufs) == Ok((filled, final))
    ensures P.ProveOps(filled, m, bufs) == Ok((filled, final))
  {
    P.FilledSkeleton(ops, m, bufs);
    P.ClaimsIgnored(ops, m, bufs);
    P.ClaimsIgnored(filled, m, bufs);
  }

  /** The last op of a run, and the run before it. */
  lemma LastOp(ops: seq<BlockOp>, m: P.Bindings, bufs: P.Bufs, filled: seq<BlockOp>, final: P.Bufs)
    returns (init: P.Bufs, out: seq<int>)
    requires |ops| > 0 && P.ProveOps(ops, m, bufs) == Ok((filled, final))
    ensures var n := |ops| - 1;
            && |filled| == |ops| && P.ProveOps(ops[..n], m, bufs) == Ok((filled[..n], init))
            && P.ProveOp(ops[n], m, init) == Ok(out)
            && filled[n] == ops[n].SetOut(out) && final == init[ops[n].outBuf := out]
  {
    hide P.ProveOp;
    var n := |ops| - 1;
    var init' := P.ProveOps(ops[..n], m, bufs).value;
    init, out := init'.1, P.ProveOp(ops[n], m, init'.1).value;
    assert filled == init'.0 + [ops[n].SetOut(out)];
  }

  lemma DescribesOut(rs: Bounds, bufs: P.Bufs, id: nat, r: Bound, out: seq<int>)
    requires Describes(rs, bufs) && Within(out, r)
    ensures Describes(rs[id := r], bufs[id := out])
  {
    hide Within;
  }

  /**
   * An op list the analysis passes: the run stays inside i64 at every step, and what it
   * claims stays inside every guard of the verifier.
   */
  lemma {:induction false} RunSound(ops: seq<BlockOp>, m: P.Bindings, rs: Bounds, bufs: P.Bufs, filled: seq<BlockOp>,
                                    final: P.Bufs)
    requires Describes(rs, bufs) && InferAll(ops, m, rs).Some? && P.ProveOps(ops, m, bufs) == Ok((filled, final))
    ensures RunInI64(ops, m, bufs) && A.AllInsideGuards(filled, m, bufs)
    ensures Describes(InferAll(ops, m, rs).value, final)
  {
    if |ops| > 0 {
      var n := |ops| - 1;
      var init, out := LastOp(ops, m, bufs, filled, final);
      hide Describes, Infer, P.ProveOps, P.ProveOp, OpInI64, A.InsideGuards, Within;
      RunSound(ops[..n], m, rs, bufs, filled[..n], init);
      var rs' := InferAll(ops[..n], m, rs).value;
      InferSound(ops[n], m, rs', init, out);
      DescribesOut(rs', init, ops[n].outBuf, Infer(ops[n], m, rs').value, out);
      Reproduced(ops[..n], m, bufs, filled[..n], init);
    } else {
      assert filled == [] && final == bufs;
    }
  }
}
