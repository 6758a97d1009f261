/**
 * crates/pwm-export/python/pwm_export/predictor_quant.py: `integer_forward`, the direct
 * layer-by-layer semantics of one predictor step, on matrices. None is a ValueError.
 */
module IntegerForward {
  import opened Wrappers
  import opened Arith
  import opened Matrix
  import opened Kernels
  import FixedPoint

  datatype Dims = Dims(d: nat, s: nat, h: nat, dh: nat, mlp: nat) {
    function Inner(): nat { MulMono(0, h, dh); h * dh }
  }

  /** Requant shifts of the five weight linears of one block. */
  datatype BlockShifts = BlockShifts(adaln: nat, qkv: nat, out: nat, fc1: nat, fc2: nat)

  datatype DerivedParams = DerivedParams(
    lnShift: nat, scoreShift: nat, ohShift: nat, gateMsaBits: nat, gateMlpBits: nat,
    modOne: int, modBits: nat, softmaxOne: int, blocks: seq<BlockShifts>)

  /** Row-major int8 weights of one block. */
  datatype QuantBlock = QuantBlock(adaln: seq<int>, qkv: seq<int>, out: seq<int>, fc1: seq<int>, fc2: seq<int>) {
    predicate Shaped(n: Dims) {
      && |adaln| == (6 * n.d) * n.d
      && |qkv| == (3 * n.Inner()) * n.d
      && |out| == n.d * n.Inner()
      && |fc1| == n.mlp * n.d
      && |fc2| == n.d * n.mlp
    }
  }

  datatype Tables = Tables(silu: ActivationTable, gelu: ActivationTable, invSqrt: ActivationTable, exp: ActivationTable)

  const CLO := -128
  const CHI := 127

  // ------------------------------------------------------------- integer helpers

  /** `np.clip` to int8. */
  function Clip(x: int): (y: int)
    ensures y == FixedPoint.Clamp(x, CLO, CHI)
  {
    var below := if x <= CHI then x else CHI;
    if below >= CLO then below else CLO
  }

  /** Floor division, as `//`. */
  function FloorDiv(a: int, b: int): int
    requires b != 0
  {
    if b > 0 then a / b else (-a) / (-b)
  }

  /** `_round_div`: what the prover's rounding division computes. */
  function PyRoundDiv(a: int, n: int): (q: int)
    requires n > 0
    ensures q == RoundDiv(a, n)
  {
    if a >= 0 then FloorDiv(a + FloorDiv(n, 2), n) else -FloorDiv(-a + FloorDiv(n, 2), n)
  }

  /** `_eval_table` on one row: an entry outside the domain raises, as the prover's lookups fail. */
  function PyEval(t: ActivationTable, row: seq<int>): (y: Option<seq<int>>)
    ensures y == EvalAll(t, row)
  {
    EvalAllExactly(t, row);
    var idx := seq(|row|, j requires 0 <= j < |row| => row[j] - t.lo);
    if exists j :: 0 <= j < |idx| && (idx[j] < 0 || idx[j] >= |t.outputs|) then None
    else
      assert forall j :: 0 <= j < |row| ==> idx[j] == row[j] - t.lo && 0 <= idx[j] < |t.outputs|;
      assert forall j :: 0 <= j < |row| ==> t.lo <= row[j] < t.lo + |t.outputs|;
      var outs := seq(|idx|, j requires 0 <= j < |idx| => t.outputs[idx[j]]);
      assert outs == EvalAll(t, row).value;
      Some(outs)
  }

  /** `_requant`: divide by 2^shift, round half to even, clip to int8. */
  function PyRequant(x: int, shift: nat): (y: int)
    ensures CLO <= y <= CHI
  {
    var rounded :=
      if shift == 0 then x
      else
        var div := Pow2(shift);
        var q, rem, half := x / div, x % div, Pow2(shift - 1);
        if rem < half then q else if rem > half then q + 1 else q + q % 2;
    Clip(rounded)
  }

  function RequantRow(x: seq<int>, shift: nat): (y: seq<int>)
    ensures |y| == |x| && AllIn(y, CLO, CHI)
  {
    seq(|x|, j requires 0 <= j < |x| => PyRequant(x[j], shift))
  }

  function RequantMat(x: Mat, shift: nat): (y: Mat)
    ensures |y| == |x| && forall p :: 0 <= p < |x| ==> y[p] == RequantRow(x[p], shift)
  {
    seq(|x|, p requires 0 <= p < |x| => RequantRow(x[p], shift))
  }

  /** `_eval_table` on a matrix: any entry outside the domain raises. */
  function EvalMat(t: ActivationTable, x: Mat): (y: Option<Mat>)
    ensures y.Some? ==> |y.value| == |x|
    ensures y.Some? ==> forall p :: 0 <= p < |x| ==> EvalAll(t, x[p]) == Some(y.value[p])
  {
    if |x| == 0 then Some([])
    else
      var init :- EvalMat(t, x[..|x| - 1]);
      var last :- PyEval(t, x[|x| - 1]);
      Some(init + [last])
  }

  /** One row of `_ln_rows_int`; the row is nonempty. */
  function LnRow(row: seq<int>, t: ActivationTable, shift: nat): (y: Option<seq<int>>)
    requires |row| > 0
    ensures y.Some? ==> |y.value| == |row| && AllIn(y.value, CLO, CHI)
  {
    var n := |row|;
    var mean := PyRoundDiv(Sum(row), n);
    var centered := seq(n, j requires 0 <= j < n => row[j] - mean);
    var variance := PyRoundDiv(DotN(centered, centered, n), n);
    var inv :- PyEval(t, [variance]);
    Some(RequantRow(seq(n, j requires 0 <= j < n => centered[j] * inv[0]), shift))
  }

  function LnRows(x: Mat, t: ActivationTable, shift: nat): (y: Option<Mat>)
    requires forall p :: 0 <= p < |x| ==> |x[p]| > 0
    ensures y.Some? ==> |y.value| == |x|
    ensures y.Some? ==> forall p :: 0 <= p < |x| ==> LnRow(x[p], t, shift) == Some(y.value[p])
  {
    if |x| == 0 then Some([])
    else
      var init :- LnRows(x[..|x| - 1], t, shift);
      var last :- LnRow(x[|x| - 1], t, shift);
      Some(init + [last])
  }

  /** `x @ y.T`: inner products of rows. */
  function TimesTransposed(x: Mat, y: Mat, inner: nat): (z: Mat)
    requires IsMat(x, |x|, inner) && IsMat(y, |y|, inner)
    ensures IsMat(z, |x|, |y|)
  {
    seq(|x|, p requires 0 <= p < |x| => seq(|y|, r requires 0 <= r < |y| => DotN(x[p], y[r], inner)))
  }

  /** `_linear_int`: `x @ reshape(w, rows, cols).T`. */
  function LinearInt(x: Mat, w: seq<int>, rows: nat, cols: nat): (z: Mat)
    requires IsMat(x, |x|, cols) && |w| == rows * cols
    ensures IsMat(z, |x|, rows)
  {
    TimesTransposed(x, Rows(w, rows, cols), cols)
  }

  function Column(y: Mat, cols: nat, j: nat): (c: seq<int>)
    requires IsMat(y, |y|, cols) && j < cols
    ensures |c| == |y|
  {
    seq(|y|, k requires 0 <= k < |y| => y[k][j])
  }

  /** `x @ y`. */
  function Times(x: Mat, y: Mat, inner: nat, cols: nat): (z: Mat)
    requires IsMat(x, |x|, inner) && IsMat(y, inner, cols)
    ensures IsMat(z, |x|, cols)
  {
    seq(|x|, p requires 0 <= p < |x| => seq(cols, j requires 0 <= j < cols => DotN(x[p], Column(y, cols, j), inner)))
  }

  /** `x[:, off : off + len]`. */
  function Cols(x: Mat, width: nat, off: nat, len: nat): (y: Mat)
    requires IsMat(x, |x|, width) && off + len <= width
    ensures IsMat(y, |x|, len)
    ensures forall p :: 0 <= p < |x| ==> y[p] == x[p][off..off + len]
  {
    seq(|x|, p requires 0 <= p < |x| => x[p][off..off + len])
  }

  /** One row of `_softmax_rows_int`. */
  function SoftmaxRow(row: seq<int>, t: ActivationTable, one: int): (y: Option<seq<int>>)
    requires |row| > 0
    ensures y.Some? ==> |y.value| == |row|
    ensures y.Some? <==> EvalAll(t, Shifted(row)).Some? && Sum(EvalAll(t, Shifted(row)).value) != 0
  {
    var shifted := seq(|row|, j requires 0 <= j < |row| => row[j] - Max(row));
    assert shifted == Shifted(row);
    var exps :- PyEval(t, shifted);
    var total := Sum(exps);
    if total == 0 then None
    else Some(seq(|exps|, j requires 0 <= j < |exps| => FloorDiv(exps[j] * one, total)))
  }

  function SoftmaxRowsInt(x: Mat, t: ActivationTable, one: int): (y: Option<Mat>)
    requires forall p :: 0 <= p < |x| ==> |x[p]| > 0
    ensures y.Some? ==> |y.value| == |x|
    ensures y.Some? ==> forall p :: 0 <= p < |x| ==> SoftmaxRow(x[p], t, one) == Some(y.value[p])
  {
    if |x| == 0 then Some([])
    else
      var init :- SoftmaxRowsInt(x[..|x| - 1], t, one);
      var last :- SoftmaxRow(x[|x| - 1], t, one);
      Some(init + [last])
  }

  /** `_requant(n * (one + sc), bits) + sh`, entry by entry. */
  function ModulateMat(n: Mat, sc: Mat, sh: Mat, one: int, bits: nat, width: nat): (y: Mat)
    requires IsMat(n, |n|, width) && IsMat(sc, |n|, width) && IsMat(sh, |n|, width)
    ensures IsMat(y, |n|, width)
  {
    seq(|n|, p requires 0 <= p < |n| =>
      seq(width, j requires 0 <= j < width => PyRequant(n[p][j] * (one + sc[p][j]), bits) + sh[p][j]))
  }

  /** `_requant(x + _requant(g * a, bits), 0)`: the gated residual. */
  function GatedResidual(x: Mat, g: Mat, a: Mat, bits: nat, width: nat): (y: Mat)
    requires IsMat(x, |x|, width) && IsMat(g, |x|, width) && IsMat(a, |x|, width)
    ensures IsMat(y, |x|, width)
    ensures forall p :: 0 <= p < |x| ==> AllIn(y[p], CLO, CHI)
  {
    seq(|x|, p requires 0 <= p < |x| =>
      seq(width, j requires 0 <= j < width => PyRequant(x[p][j] + PyRequant(g[p][j] * a[p][j], bits), 0)))
  }

  // ------------------------------------------------------------------- attention

  /** `heads[:, off : off + len] = block`. */
  function WriteCols(heads: Mat, width: nat, off: nat, block: Mat, len: nat): (y: Mat)
    requires IsMat(heads, |heads|, width) && IsMat(block, |heads|, len) && off + len <= width
    ensures IsMat(y, |heads|, width)
  {
    seq(|heads|, p requires 0 <= p < |heads| => heads[p][..off] + block[p] + heads[p][off + len..])
  }

  /** First column of head `i`. */
  function HeadOff(n: Dims, i: nat): (off: nat)
    requires i < n.h
    ensures off + n.dh <= n.Inner()
  {
    RowBounds(i, n.h, n.dh);
    i * n.dh
  }

  /** One head: scores, probabilities, mix. */
  function HeadOut(q: Mat, k: Mat, v: Mat, n: Dims, i: nat, dp: DerivedParams, t: Tables): (y: Option<Mat>)
    requires n.s >= 1 && i < n.h
    requires IsMat(q, n.s, n.Inner()) && IsMat(k, n.s, n.Inner()) && IsMat(v, n.s, n.Inner())
    ensures y.Some? ==> IsMat(y.value, n.s, n.dh)
  {
    var off, inner := HeadOff(n, i), n.Inner();
    HeadMix(Cols(q, inner, off, n.dh), Cols(k, inner, off, n.dh), Cols(v, inner, off, n.dh), n, dp, t)
  }

  function HeadMix(qh: Mat, kh: Mat, vh: Mat, n: Dims, dp: DerivedParams, t: Tables): (y: Option<Mat>)
    requires n.s >= 1 && IsMat(qh, n.s, n.dh) && IsMat(kh, n.s, n.dh) && IsMat(vh, n.s, n.dh)
    ensures y.Some? ==> IsMat(y.value, n.s, n.dh)
  {
    var scores := RequantMat(TimesTransposed(qh, kh, n.dh), dp.scoreShift);
    var prob :- SoftmaxRowsInt(scores, t.exp, dp.softmaxOne);
    Some(RequantMat(Times(prob, vh, n.s, n.dh), dp.ohShift))
  }

  /** `heads[:, off : off + dh] = out` for head `i`. */
  function PutHead(heads: Mat, out: Mat, n: Dims, i: nat): (y: Mat)
    requires i < n.h && IsMat(heads, n.s, n.Inner()) && IsMat(out, n.s, n.dh)
    ensures IsMat(y, n.s, n.Inner())
  {
    WriteCols(heads, n.Inner(), HeadOff(n, i), out, n.dh)
  }

  function Blank(rows: nat, width: nat): (y: Mat)
    ensures IsMat(y, rows, width)
  {
    seq(rows, p requires 0 <= p < rows => seq(width, _ => 0))
  }

  /** The heads matrix after the first `i` writes. */
  function Heads(q: Mat, k: Mat, v: Mat, n: Dims, i: nat, dp: DerivedParams, t: Tables): (y: Option<Mat>)
    requires n.s >= 1 && i <= n.h
    requires IsMat(q, n.s, n.Inner()) && IsMat(k, n.s, n.Inner()) && IsMat(v, n.s, n.Inner())
    ensures y.Some? ==> IsMat(y.value, n.s, n.Inner())
  {
    if i == 0 then Some(Blank(n.s, n.Inner()))
    else
      var before :- Heads(q, k, v, n, i - 1, dp, t);
      var out :- HeadOut(q, k, v, n, i - 1, dp, t);
      Some(PutHead(before, out, n, i - 1))
  }

  function AttnMat(m: Mat, qb: QuantBlock, n: Dims, dp: DerivedParams, bs: BlockShifts, t: Tables): (y: Option<Mat>)
    requires n.s >= 1 && n.d >= 1 && IsMat(m, n.s, n.d) && qb.Shaped(n)
    ensures y.Some? ==> IsMat(y.value, n.s, n.d)
  {
    var inner := n.Inner();
    var a0 :- LnRows(m, t.invSqrt, dp.lnShift);
    var qkv := RequantMat(LinearInt(a0, qb.qkv, 3 * inner, n.d), bs.qkv);
    var q, k, v := Cols(qkv, 3 * inner, 0, inner), Cols(qkv, 3 * inner, inner, inner),
        Cols(qkv, 3 * inner, 2 * inner, inner);
    var heads :- Heads(q, k, v, n, n.h, dp, t);
    Some(RequantMat(LinearInt(heads, qb.out, n.d, inner), bs.out))
  }

  // ----------------------------------------------------------- the step, in order

  function FfnMat(m: Mat, qb: QuantBlock, n: Dims, dp: DerivedParams, bs: BlockShifts, t: Tables): (y: Option<Mat>)
    requires n.s >= 1 && n.d >= 1 && IsMat(m, n.s, n.d) && qb.Shaped(n)
    ensures y.Some? ==> IsMat(y.value, n.s, n.d)
  {
    var f0 :- LnRows(m, t.invSqrt, dp.lnShift);
    var h1 := RequantMat(LinearInt(f0, qb.fc1, n.mlp, n.d), bs.fc1);
    var g :- EvalMat(t.gelu, h1);
    Some(RequantMat(LinearInt(g, qb.fc2, n.d, n.mlp), bs.fc2))
  }

  /** Chunk `i` of the six AdaLN parameters. */
  function Chunk(ada: Mat, n: Dims, i: nat): (y: Mat)
    requires IsMat(ada, n.s, 6 * n.d) && i < 6
    ensures IsMat(y, n.s, n.d)
  {
    Cols(ada, 6 * n.d, i * n.d, n.d)
  }

  function IntegerBlock(x: Mat, siluC: Mat, qb: QuantBlock, n: Dims, dp: DerivedParams, bs: BlockShifts,
                        t: Tables): (y: Option<Mat>)
    requires n.s >= 1 && n.d >= 1 && IsMat(x, n.s, n.d) && IsMat(siluC, n.s, n.d) && qb.Shaped(n)
    ensures y.Some? ==> IsMat(y.value, n.s, n.d)
    ensures y.Some? ==> forall p :: 0 <= p < n.s ==> AllIn(y.value[p], CLO, CHI)
  {
    var ada := RequantMat(LinearInt(siluC, qb.adaln, 6 * n.d, n.d), bs.adaln);
    var shMsa, scMsa, gMsa := Chunk(ada, n, 0), Chunk(ada, n, 1), Chunk(ada, n, 2);
    var shMlp, scMlp, gMlp := Chunk(ada, n, 3), Chunk(ada, n, 4), Chunk(ada, n, 5);
    var n1 :- LnRows(x, t.invSqrt, dp.lnShift);
    var m1 := ModulateMat(n1, scMsa, shMsa, dp.modOne, dp.modBits, n.d);
    var a :- AttnMat(m1, qb, n, dp, bs, t);
    var x1 := GatedResidual(x, gMsa, a, dp.gateMsaBits, n.d);
    var n2 :- LnRows(x1, t.invSqrt, dp.lnShift);
    var m2 := ModulateMat(n2, scMlp, shMlp, dp.modOne, dp.modBits, n.d);
    var f :- FfnMat(m2, qb, n, dp, bs, t);
    Some(GatedResidual(x1, gMlp, f, dp.gateMlpBits, n.d))
  }

  /** The residual stream after the first `i` blocks. */
  function Stream(x: Mat, siluC: Mat, qbs: seq<QuantBlock>, n: Dims, dp: DerivedParams, t: Tables,
                  i: nat): (y: Option<Mat>)
    requires n.s >= 1 && n.d >= 1 && IsMat(x, n.s, n.d) && IsMat(siluC, n.s, n.d)
    requires |qbs| == |dp.blocks| && i <= |qbs| && forall j :: 0 <= j < |qbs| ==> qbs[j].Shaped(n)
    ensures y.Some? ==> IsMat(y.value, n.s, n.d)
  {
    if i == 0 then Some(x)
    else
      var before :- Stream(x, siluC, qbs, n, dp, t, i - 1);
      IntegerBlock(before, siluC, qbs[i - 1], n, dp, dp.blocks[i - 1], t)
  }

  function Forward(n: Dims, qbs: seq<QuantBlock>, xq: seq<int>, cq: seq<int>, dp: DerivedParams,
                   t: Tables): Option<seq<int>>
    requires n.s >= 1 && n.d >= 1 && |xq| == n.s * n.d && |cq| == n.s * n.d
    requires |qbs| == |dp.blocks| && forall j :: 0 <= j < |qbs| ==> qbs[j].Shaped(n)
  {
    var siluC :- EvalMat(t.silu, Rows(cq, n.s, n.d));
    var x :- Stream(Rows(xq, n.s, n.d), siluC, qbs, n, dp, t, |qbs|);
    var z :- LnRows(x, t.invSqrt, dp.lnShift);
    Some(Flatten(z))
  }

  // ------------------------------------------------------------ defined so far

  /** If the heads matrix is defined, so is every head written into it. */
  lemma {:induction false} HeadDefined(qm: Mat, km: Mat, vm: Mat, n: Dims, upTo: nat, dp: DerivedParams, t: Tables,
                                       i: nat)
    requires n.s >= 1 && IsMat(qm, n.s, n.Inner()) && IsMat(km, n.s, n.Inner()) && IsMat(vm, n.s, n.Inner())
    requires i < upTo <= n.h && Heads(qm, km, vm, n, upTo, dp, t).Some?
    ensures HeadOut(qm, km, vm, n, i, dp, t).Some?
  {
    hide HeadOut, PutHead;
    if i < upTo - 1 {
      HeadDefined(qm, km, vm, n, upTo - 1, dp, t, i);
    }
  }

  /** A defined stream is defined at every earlier depth. */
  lemma {:induction false} StreamDefined(x: Mat, siluC: Mat, qbs: seq<QuantBlock>, n: Dims, dp: DerivedParams,
                                         t: Tables, i: nat, k: nat)
    requires n.s >= 1 && n.d >= 1 && IsMat(x, n.s, n.d) && IsMat(siluC, n.s, n.d)
    requires |qbs| == |dp.blocks| && i <= k <= |qbs| && forall j :: 0 <= j < |qbs| ==> qbs[j].Shaped(n)
    requires Stream(x, siluC, qbs, n, dp, t, k).Some?
    ensures Stream(x, siluC, qbs, n, dp, t, i).Some?
  {
    hide IntegerBlock;
    if i < k {
      StreamDefined(x, siluC, qbs, n, dp, t, i, k - 1);
    }
  }

  // ----------------------------------------------------- the step never gets stuck

  /** Tables over the domains the step can reach, with a softmax that cannot vanish. */
  predicate CoversStep(t: Tables) {
    && t.silu.Covers(CLO, CHI) && t.gelu.Covers(CLO, CHI)
    && t.invSqrt.Covers(0, 510 * 510) && t.exp.Covers(-255, 0)
    && Nonnegative(t.exp) && t.exp.Eval(0).Some? && t.exp.Eval(0).value > 0
  }

  predicate RowsIn(x: Mat, lo: int, hi: int) {
    forall p :: 0 <= p < |x| ==> AllIn(x[p], lo, hi)
  }

  lemma CoversEval(t: ActivationTable, a: int, b: int, x: int)
    requires t.Covers(a, b) && a <= x <= b
    ensures t.Eval(x).Some?
  {
  }

  lemma LnRowTotal(row: seq<int>, t: ActivationTable, shift: nat, lo: int, hi: int)
    requires |row| > 0 && AllIn(row, lo, hi) && 0 <= hi - lo <= 510 && t.Covers(0, 510 * 510)
    ensures LnRow(row, t, shift).Some?
  {
    VarianceBound(row, lo, hi);
    assert seq(|row|, j requires 0 <= j < |row| => row[j] - Mean(row)) == Centered(row, Mean(row));
    MulMono(hi - lo, 510, hi - lo);
    MulMono(hi - lo, 510, 510);
    CoversEval(t, 0, 510 * 510, Variance(row));
  }

  lemma {:induction false} LnRowsTotal(x: Mat, t: ActivationTable, shift: nat, lo: int, hi: int)
    requires RowsIn(x, lo, hi) && 0 <= hi - lo <= 510 && t.Covers(0, 510 * 510)
    requires forall p :: 0 <= p < |x| ==> |x[p]| > 0
    ensures LnRows(x, t, shift).Some?
  {
    if |x| != 0 {
      LnRowsTotal(x[..|x| - 1], t, shift, lo, hi);
      LnRowTotal(x[|x| - 1], t, shift, lo, hi);
    }
  }

  lemma {:induction false} EvalMatTotal(x: Mat, t: ActivationTable)
    requires RowsIn(x, CLO, CHI) && t.Covers(CLO, CHI)
    ensures EvalMat(t, x).Some?
  {
    if |x| != 0 {
      EvalMatTotal(x[..|x| - 1], t);
      var row := x[|x| - 1];
      forall i | 0 <= i < |row| ensures t.Eval(row[i]).Some? { CoversEval(t, CLO, CHI, row[i]); }
      EvalAllSucceeds(t, row);
    }
  }

  lemma SoftmaxRowTotal(row: seq<int>, t: ActivationTable, one: int)
    requires |row| > 0 && AllIn(row, CLO, CHI)
    requires t.Covers(-255, 0) && Nonnegative(t) && t.Eval(0).Some? && t.Eval(0).value > 0
    ensures SoftmaxRow(row, t, one).Some?
  {
    var s := Shifted(row);
    var top := ArgMax(row);
    forall i | 0 <= i < |s| ensures t.Eval(s[i]).Some? { CoversEval(t, -255, 0, s[i]); }
    EvalAllSucceeds(t, s);
    var exps := EvalAll(t, s).value;
    forall i | 0 <= i < |exps| ensures exps[i] >= 0 { EvalAllAt(t, s, i); }
    EvalAllAt(t, s, top);
    SumNonneg(exps, |exps|);
  }

  lemma {:induction false} SoftmaxRowsTotal(x: Mat, t: ActivationTable, one: int)
    requires RowsIn(x, CLO, CHI) && forall p :: 0 <= p < |x| ==> |x[p]| > 0
    requires t.Covers(-255, 0) && Nonnegative(t) && t.Eval(0).Some? && t.Eval(0).value > 0
    ensures SoftmaxRowsInt(x, t, one).Some?
  {
    if |x| != 0 {
      SoftmaxRowsTotal(x[..|x| - 1], t, one);
      SoftmaxRowTotal(x[|x| - 1], t, one);
    }
  }

  lemma HeadTotal(q: Mat, k: Mat, v: Mat, n: Dims, i: nat, dp: DerivedParams, t: Tables)
    requires n.s >= 1 && i < n.h && CoversStep(t)
    requires IsMat(q, n.s, n.Inner()) && IsMat(k, n.s, n.Inner()) && IsMat(v, n.s, n.Inner())
    ensures HeadOut(q, k, v, n, i, dp, t).Some?
  {
    var off, inner := HeadOff(n, i), n.Inner();
    var qh, kh := Cols(q, inner, off, n.dh), Cols(k, inner, off, n.dh);
    SoftmaxRowsTotal(RequantMat(TimesTransposed(qh, kh, n.dh), dp.scoreShift), t.exp, dp.softmaxOne);
  }

  lemma HeadsStep(q: Mat, k: Mat, v: Mat, n: Dims, i: nat, dp: DerivedParams, t: Tables)
    requires n.s >= 1 && i < n.h
    requires IsMat(q, n.s, n.Inner()) && IsMat(k, n.s, n.Inner()) && IsMat(v, n.s, n.Inner())
    requires Heads(q, k, v, n, i, dp, t).Some? && HeadOut(q, k, v, n, i, dp, t).Some?
    ensures Heads(q, k, v, n, i + 1, dp, t)
            == Some(PutHead(Heads(q, k, v, n, i, dp, t).value, HeadOut(q, k, v, n, i, dp, t).value, n, i))
  {
  }

  lemma {:induction false} HeadsTotal(q: Mat, k: Mat, v: Mat, n: Dims, i: nat, dp: DerivedParams, t: Tables)
    requires n.s >= 1 && i <= n.h && CoversStep(t)
    requires IsMat(q, n.s, n.Inner()) && IsMat(k, n.s, n.Inner()) && IsMat(v, n.s, n.Inner())
    ensures Heads(q, k, v, n, i, dp, t).Some?
  {
    for j := 0 to i
      invariant Heads(q, k, v, n, j, dp, t).Some?
    {
      HeadTotal(q, k, v, n, j, dp, t);
      HeadsStep(q, k, v, n, j, dp, t);
    }
  }

  /** Modulated values span [-256, 254]: exactly the 510 the variance table allows for. */
  lemma ModulateRange(y: Mat, sc: Mat, sh: Mat, one: int, bits: nat, width: nat)
    requires IsMat(y, |y|, width) && IsMat(sc, |y|, width) && IsMat(sh, |y|, width) && RowsIn(sh, CLO, CHI)
    ensures RowsIn(ModulateMat(y, sc, sh, one, bits, width), -256, 254)
  {
  }

  lemma ChunkRange(ada: Mat, n: Dims, i: nat)
    requires IsMat(ada, n.s, 6 * n.d) && i < 6 && RowsIn(ada, CLO, CHI)
    ensures RowsIn(Chunk(ada, n, i), CLO, CHI)
  {
  }

  /** A block on int8 rows succeeds, and its result is again int8. */
  lemma BlockTotal(x: Mat, siluC: Mat, qb: QuantBlock, n: Dims, dp: DerivedParams, bs: BlockShifts, t: Tables)
    requires n.s >= 1 && n.d >= 1 && IsMat(x, n.s, n.d) && IsMat(siluC, n.s, n.d) && qb.Shaped(n)
    requires CoversStep(t) && RowsIn(x, CLO, CHI)
    ensures IntegerBlock(x, siluC, qb, n, dp, bs, t).Some?
  {
    var ada := RequantMat(LinearInt(siluC, qb.adaln, 6 * n.d, n.d), bs.adaln);
    LnRowsTotal(x, t.invSqrt, dp.lnShift, CLO, CHI);
    var n1 := LnRows(x, t.invSqrt, dp.lnShift).value;
    ChunkRange(ada, n, 0);
    ModulateRange(n1, Chunk(ada, n, 1), Chunk(ada, n, 0), dp.modOne, dp.modBits, n.d);
    var m1 := ModulateMat(n1, Chunk(ada, n, 1), Chunk(ada, n, 0), dp.modOne, dp.modBits, n.d);
    AttnTotal(m1, qb, n, dp, bs, t);
    var a := AttnMat(m1, qb, n, dp, bs, t).value;
    var x1 := GatedResidual(x, Chunk(ada, n, 2), a, dp.gateMsaBits, n.d);
    LnRowsTotal(x1, t.invSqrt, dp.lnShift, CLO, CHI);
    var n2 := LnRows(x1, t.invSqrt, dp.lnShift).value;
    ChunkRange(ada, n, 3);
    ModulateRange(n2, Chunk(ada, n, 4), Chunk(ada, n, 3), dp.modOne, dp.modBits, n.d);
    FfnTotal(ModulateMat(n2, Chunk(ada, n, 4), Chunk(ada, n, 3), dp.modOne, dp.modBits, n.d), qb, n, dp, bs, t);
  }

  lemma AttnTotal(m: Mat, qb: QuantBlock, n: Dims, dp: DerivedParams, bs: BlockShifts, t: Tables)
    requires n.s >= 1 && n.d >= 1 && IsMat(m, n.s, n.d) && qb.Shaped(n)
    requires CoversStep(t) && RowsIn(m, -256, 254)
    ensures AttnMat(m, qb, n, dp, bs, t).Some?
  {
    LnRowsTotal(m, t.invSqrt, dp.lnShift, -256, 254);
    var inner := n.Inner();
    var a0 := LnRows(m, t.invSqrt, dp.lnShift).value;
    var qkv := RequantMat(LinearInt(a0, qb.qkv, 3 * inner, n.d), bs.qkv);
    HeadsTotal(Cols(qkv, 3 * inner, 0, inner), Cols(qkv, 3 * inner, inner, inner),
               Cols(qkv, 3 * inner, 2 * inner, inner), n, n.h, dp, t);
  }

  lemma FfnTotal(m: Mat, qb: QuantBlock, n: Dims, dp: DerivedParams, bs: BlockShifts, t: Tables)
    requires n.s >= 1 && n.d >= 1 && IsMat(m, n.s, n.d) && qb.Shaped(n)
    requires CoversStep(t) && RowsIn(m, -256, 254)
    ensures FfnMat(m, qb, n, dp, bs, t).Some?
  {
    LnRowsTotal(m, t.invSqrt, dp.lnShift, -256, 254);
    var f0 := LnRows(m, t.invSqrt, dp.lnShift).value;
    EvalMatTotal(RequantMat(LinearInt(f0, qb.fc1, n.mlp, n.d), bs.fc1), t.gelu);
  }

  predicate Int8Stream(y: Option<Mat>) {
    y.Some? && RowsIn(y.value, CLO, CHI)
  }

  lemma StreamStep(x: Mat, siluC: Mat, qbs: seq<QuantBlock>, n: Dims, dp: DerivedParams, t: Tables, i: nat)
    requires n.s >= 1 && n.d >= 1 && IsMat(x, n.s, n.d) && IsMat(siluC, n.s, n.d)
    requires |qbs| == |dp.blocks| && i < |qbs| && forall j :: 0 <= j < |qbs| ==> qbs[j].Shaped(n)
    requires CoversStep(t) && Int8Stream(Stream(x, siluC, qbs, n, dp, t, i))
    ensures Int8Stream(Stream(x, siluC, qbs, n, dp, t, i + 1))
  {
    BlockTotal(Stream(x, siluC, qbs, n, dp, t, i).value, siluC, qbs[i], n, dp, dp.blocks[i], t);
  }

  lemma {:induction false} StreamTotal(x: Mat, siluC: Mat, qbs: seq<QuantBlock>, n: Dims, dp: DerivedParams,
                                       t: Tables, i: nat)
    requires n.s >= 1 && n.d >= 1 && IsMat(x, n.s, n.d) && IsMat(siluC, n.s, n.d)
    requires |qbs| == |dp.blocks| && i <= |qbs| && forall j :: 0 <= j < |qbs| ==> qbs[j].Shaped(n)
    requires CoversStep(t) && RowsIn(x, CLO, CHI)
    ensures Int8Stream(Stream(x, siluC, qbs, n, dp, t, i))
  {
    for j := 0 to i
      invariant Int8Stream(Stream(x, siluC, qbs, n, dp, t, j))
    {
      StreamStep(x, siluC, qbs, n, dp, t, j);
    }
  }

  lemma RowsAllIn(x: seq<int>, n: nat, width: nat, lo: int, hi: int)
    requires |x| == n * width && AllIn(x, lo, hi)
    ensures RowsIn(Rows(x, n, width), lo, hi)
  {
    var m := Rows(x, n, width);
    FlattenRows(x, n, width);
    forall p | 0 <= p < n ensures AllIn(m[p], lo, hi) {
      FlattenRow(m, n, width, p);
    }
  }

  /** On int8 inputs the step returns a value: no lookup leaves its table. */
  lemma ForwardTotal(n: Dims, qbs: seq<QuantBlock>, xq: seq<int>, cq: seq<int>, dp: DerivedParams, t: Tables)
    requires n.s >= 1 && n.d >= 1 && |xq| == n.s * n.d && |cq| == n.s * n.d
    requires |qbs| == |dp.blocks| && forall j :: 0 <= j < |qbs| ==> qbs[j].Shaped(n)
    requires CoversStep(t) && AllIn(xq, CLO, CHI) && AllIn(cq, CLO, CHI)
    ensures Forward(n, qbs, xq, cq, dp, t).Some?
  {
    RowsAllIn(xq, n.s, n.d, CLO, CHI);
    RowsAllIn(cq, n.s, n.d, CLO, CHI);
    EvalMatTotal(Rows(cq, n.s, n.d), t.silu);
    var siluC := EvalMat(t.silu, Rows(cq, n.s, n.d)).value;
    StreamTotal(Rows(xq, n.s, n.d), siluC, qbs, n, dp, t, |qbs|);
    LnRowsTotal(Stream(Rows(xq, n.s, n.d), siluC, qbs, n, dp, t, |qbs|).value, t.invSqrt, dp.lnShift, CLO, CHI);
  }
}
