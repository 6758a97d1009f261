/**
 * The circuit means what the direct semantics says: running the prover on a built
 * block leaves in each returned buffer the flattened matrix of the direct semantics.
 */
module CircuitProof {
  import opened Wrappers
  import opened Arith
  import opened Matrix
  import opened FixedPoint
  import opened Kernels
  import opened Tensors
  import opened Blocks
  import opened IntegerForward
  import opened Circuit
  import opened FlatKernels
  import opened SoftmaxAgreement
  import P = BlockProver

  // ------------------------------------------------------- the meaning of a state

  /** What the emitted ops run against: weights and tables, and the seeded buffers. */
  datatype Env = Env(m: P.Bindings, seed: P.Bufs)

  ghost function Final(b: BState, e: Env): Option<P.Bufs> {
    var r := P.ProveOps(b.ops, e.m, e.seed);
    if r.Ok? then Some(r.value.1) else None
  }

  /** The content of a buffer once the ops emitted so far have run. */
  ghost function Val(b: BState, e: Env, id: nat): Option<seq<int>> {
    var f := Final(b, e);
    if f.None? then None else P.Get(f.value, id)
  }

  /** The ops run, and every written or seeded buffer was allocated. */
  ghost predicate Runs(b: BState, e: Env) {
    && Final(b, e).Some?
    && forall id :: id in Final(b, e).value ==> id < b.nextBuf
  }

  /** No buffer loses its content. */
  ghost predicate Keeps(b: BState, b': BState, e: Env) {
    forall id :: Val(b, e, id).Some? ==> Val(b', e, id) == Val(b, e, id)
  }

  /** `b'` runs, keeps what `b` computed, and returns `out`. */
  ghost predicate Yields(b: BState, b': BState, e: Env, out: seq<int>) {
    Runs(b', e) && Keeps(b, b', e) && Val(b', e, Out(b')) == Some(out)
  }

  /** Emitting an op that the prover can run on the current buffers. */
  lemma EmitSim(b: BState, e: Env, op: BlockOp, out: seq<int>)
    requires Runs(b, e) && op.outBuf == b.nextBuf
    requires P.ProveOp(op, e.m, Final(b, e).value) == Ok(out)
    ensures Yields(b, Emit(b, op), e, out)
  {
    hide P.ProveOp;
    var ops := b.ops + [op];
    assert ops[..|b.ops|] == b.ops;
    assert Final(Emit(b, op), e) == Some(Final(b, e).value[b.nextBuf := out]);
  }

  /** The four tables, found under their ids. */
  ghost predicate HasTables(e: Env, t: Tables) {
    && FindTable(e.m.tables, 1) == Some(t.silu)
    && FindTable(e.m.tables, 2) == Some(t.gelu)
    && FindTable(e.m.tables, 3) == Some(t.invSqrt)
    && FindTable(e.m.tables, 4) == Some(t.exp)
  }

  ghost predicate HasWeight(e: Env, id: nat, rows: nat, cols: nat, w: seq<int>) {
    var f := FindTensor(e.m.weights, id);
    f.Some? && f.value.shape == [rows, cols] && f.value.Values() == w && |w| == rows * cols
  }

  // ------------------------------------------------------------- one op at a time

  lemma ExactCast(x: nat)
    requires x < TWO32
    ensures U32(x) == x
  {
  }

  lemma RequantSim(b: BState, e: Env, x: nat, v: seq<int>, shift: nat)
    requires Runs(b, e) && Val(b, e, x) == Some(v)
    ensures Yields(b, RequantB(b, x, shift), e, RequantAll(v, shift, 0, CLO, CHI, NearestTiesToEven))
  {
    EmitSim(b, e, BlockOp.Requant(b.nextOp, x, b.nextBuf, [], shift, 0, CLO, CHI, RND),
            RequantAll(v, shift, 0, CLO, CHI, NearestTiesToEven));
  }

  lemma BatchedLinearSim(b: BState, e: Env, x: nat, m: Mat, s: nat, id: nat, rows: nat, cols: nat, w: seq<int>)
    requires Runs(b, e) && Val(b, e, x) == Some(Flatten(m)) && IsMat(m, s, cols)
    requires HasWeight(e, id, rows, cols, w) && s < TWO32
    ensures Yields(b, BatchedLinearB(b, x, id, s), e, Flatten(LinearInt(m, w, rows, cols)))
  {
    LinearFlat(w, m, s, rows, cols);
    var out := LinearRows(w, Flatten(m), Zeros(rows), s, rows, cols);
    assert s == 0 ==> out == [];
    hide LinearRows, LinearInt, U32, IsMat;
    ExactCast(s);
    var op := BlockOp.BatchedLinear(b.nextOp, id, None, x, b.nextBuf, [], U32(s));
    assert Zeros(rows)[..rows] == Zeros(rows);
    EmitSim(b, e, op, out);
  }

  lemma ActivationSim(b: BState, e: Env, x: nat, m: Mat, id: nat, t: ActivationTable)
    requires Runs(b, e) && Val(b, e, x) == Some(Flatten(m)) && FindTable(e.m.tables, id) == Some(t)
    requires EvalMat(t, m).Some?
    ensures Yields(b, ActivationB(b, x, id), e, Flatten(EvalMat(t, m).value))
  {
    EvalFlat(t, m);
    EmitSim(b, e, BlockOp.Activation(b.nextOp, id, x, b.nextBuf, []), Flatten(EvalMat(t, m).value));
  }

  lemma LayerNormSim(b: BState, e: Env, x: nat, row: seq<int>, t: ActivationTable, shift: nat)
    requires Runs(b, e) && Val(b, e, x) == Some(row) && FindTable(e.m.tables, TABLE_INVSQRT) == Some(t)
    requires |row| > 0 && LnRow(row, t, shift).Some?
    ensures Yields(b, LayerNormB(b, x, TABLE_INVSQRT, shift), e, LnRow(row, t, shift).value)
  {
    LayerNormAgrees(row, t, shift);
    EmitSim(b, e, BlockOp.LayerNorm(b.nextOp, TABLE_INVSQRT, x, b.nextBuf, [], shift, CLO, CHI, RND),
            LnRow(row, t, shift).value);
  }

  lemma ModulateSim(b: BState, e: Env, x: nat, sc: nat, sh: nat, m: Mat, scm: Mat, shm: Mat, one: int, bits: nat,
                    s: nat, d: nat)
    requires Runs(b, e) && IsMat(m, s, d) && IsMat(scm, s, d) && IsMat(shm, s, d)
    requires Val(b, e, x) == Some(Flatten(m)) && Val(b, e, sc) == Some(Flatten(scm))
             && Val(b, e, sh) == Some(Flatten(shm))
    ensures Yields(b, ModulateB(b, x, sc, sh, one, bits), e, Flatten(ModulateMat(m, scm, shm, one, bits, d)))
  {
    ModulateFlat(m, scm, shm, one, bits, s, d);
    EmitSim(b, e, BlockOp.Modulate(b.nextOp, x, sc, sh, b.nextBuf, [], one, bits, CLO, CHI, RND),
            Flatten(ModulateMat(m, scm, shm, one, bits, d)));
  }

  lemma GateSim(b: BState, e: Env, g: nat, x: nat, gv: seq<int>, xv: seq<int>, bits: nat)
    requires Runs(b, e) && Val(b, e, g) == Some(gv) && Val(b, e, x) == Some(xv) && |gv| == |xv|
    ensures Yields(b, GateB(b, g, x, bits), e, GateVec(gv, xv, Int8Requant(bits)))
  {
    EmitSim(b, e, BlockOp.Gate(b.nextOp, g, x, b.nextBuf, [], bits, CLO, CHI, RND), GateVec(gv, xv, Int8Requant(bits)));
  }

  lemma AddSim(b: BState, e: Env, x: nat, y: nat, xv: seq<int>, yv: seq<int>)
    requires Runs(b, e) && Val(b, e, x) == Some(xv) && Val(b, e, y) == Some(yv) && |xv| == |yv|
    ensures Yields(b, AddB(b, x, y), e, ResidualAdd(xv, yv))
  {
    EmitSim(b, e, BlockOp.Add(b.nextOp, x, y, b.nextBuf, []), ResidualAdd(xv, yv));
  }

  lemma MatMulSim(b: BState, e: Env, x: nat, y: nat, xv: seq<int>, yv: seq<int>, rows: nat, inner: nat, cols: nat,
                  transposed: bool)
    requires Runs(b, e) && Val(b, e, x) == Some(xv) && Val(b, e, y) == Some(yv)
    requires rows < TWO32 && inner < TWO32 && cols < TWO32
             && Kernels.MatMul(xv, yv, rows, inner, cols, transposed).Some?
    ensures Yields(b, MatMulB(b, x, y, rows, inner, cols, transposed), e,
                   Kernels.MatMul(xv, yv, rows, inner, cols, transposed).value)
  {
    hide Kernels.MatMul, U32;
    ExactCast(rows);
    ExactCast(inner);
    ExactCast(cols);
    EmitSim(b, e, BlockOp.MatMul(b.nextOp, x, y, b.nextBuf, [], U32(rows), U32(inner), U32(cols), transposed),
            Kernels.MatMul(xv, yv, rows, inner, cols, transposed).value);
  }

  lemma SoftmaxSim(b: BState, e: Env, x: nat, m: Mat, s: nat, width: nat, t: ActivationTable, one: int)
    requires Runs(b, e) && Val(b, e, x) == Some(Flatten(m)) && FindTable(e.m.tables, TABLE_EXP) == Some(t)
    requires IsMat(m, s, width) && 0 < width < TWO32 && SoftmaxSafe(t, one) && SoftmaxRowsInt(m, t, one).Some?
    ensures Yields(b, SoftmaxB(b, x, TABLE_EXP, width, one), e, Flatten(SoftmaxRowsInt(m, t, one).value))
  {
    hide SoftmaxRows, SoftmaxRowsInt, U32, IsMat, SoftmaxSafe;
    SoftmaxFlat(m, s, width, t, one);
    ExactCast(width);
    EmitSim(b, e, BlockOp.Softmax(b.nextOp, TABLE_EXP, x, b.nextBuf, [], U32(width), one),
            Flatten(SoftmaxRowsInt(m, t, one).value));
  }

  lemma SliceSim(b: BState, e: Env, x: nat, v: seq<int>, start: nat, len: nat)
    requires Runs(b, e) && Val(b, e, x) == Some(v) && start + len <= |v| < TWO32
    ensures Yields(b, SliceB(b, x, start, len), e, v[start..start + len])
  {
    hide U32;
    ExactCast(start);
    ExactCast(len);
    EmitSim(b, e, BlockOp.Slice(b.nextOp, x, b.nextBuf, U32(start), U32(len), []), v[start..start + len]);
  }

  // -------------------------------------------------------- rows collected in loops

  /** The listed buffers hold the rows. */
  ghost predicate Collects(b: BState, l: Listed, e: Env, rows: Mat) {
    && Runs(l.b, e) && Keeps(b, l.b, e) && |l.ids| == |rows|
    && forall i :: 0 <= i < |rows| ==> Val(l.b, e, l.ids[i]) == Some(rows[i])
  }

  lemma PushSim(b: BState, l: Listed, e: Env, rows: Mat, b': BState, out: seq<int>)
    requires Collects(b, l, e, rows) && Yields(l.b, b', e, out)
    ensures Collects(b, Listed(b', l.ids + [Out(b')]), e, rows + [out])
  {
    hide Val, Runs, Out;
  }

  lemma {:induction false} ConcatCollected(b: BState, e: Env, ids: seq<nat>, rows: Mat)
    requires Runs(b, e) && |ids| == |rows| && forall i :: 0 <= i < |rows| ==> Val(b, e, ids[i]) == Some(rows[i])
    ensures P.ConcatBufs(Final(b, e).value, ids) == Ok(Flatten(rows))
  {
    hide Final;
    if |ids| != 0 {
      var n := |ids| - 1;
      ConcatCollected(b, e, ids[..n], rows[..n]);
      assert Val(b, e, ids[n]) == Some(rows[n]);
    }
  }

  lemma ConcatSim(b: BState, l: Listed, e: Env, rows: Mat)
    requires Collects(b, l, e, rows)
    ensures Yields(b, ConcatB(l.b, l.ids), e, Flatten(rows))
  {
    hide Val;
    ConcatCollected(l.b, e, l.ids, rows);
    EmitSim(l.b, e, BlockOp.Concat(l.b.nextOp, l.ids, l.b.nextBuf, []), Flatten(rows));
  }

  /** Slicing inside row `p` of a flattened matrix. */
  lemma RowSlice(m: Mat, s: nat, width: nat, p: nat, col: nat, len: nat)
    requires IsMat(m, s, width) && p < s && col + len <= width
    ensures |Flatten(m)| == s * width && At(p, width, col) + len <= s * width
    ensures Flatten(m)[At(p, width, col)..At(p, width, col) + len] == m[p][col..col + len]
  {
    FlattenRow(m, s, width, p);
    SubSlice(Flatten(m), p * width, width, col, len);
  }

  lemma SubSlice(f: seq<int>, off: nat, width: nat, col: nat, len: nat)
    requires off + width <= |f| && col + len <= width
    ensures f[off..off + width][col..col + len] == f[off + col..off + col + len]
  {
    var a, c := f[off..off + width][col..col + len], f[off + col..off + col + len];
    assert |a| == |c| && forall i :: 0 <= i < |a| ==> a[i] == c[i];
  }

  lemma LnRowSim(b: BState, l: Listed, e: Env, x: nat, m: Mat, s: nat, d: nat, shift: nat, t: Tables, y: Mat, p: nat)
    requires HasTables(e, t) && Val(b, e, x) == Some(Flatten(m)) && IsMat(m, s, d) && d > 0 && s * d < TWO32
             && p < s == |y|
    requires LnRow(m[p], t.invSqrt, shift) == Some(y[p])
    requires Collects(b, l, e, y[..p])
    ensures Collects(b, LnRowB(l, x, p, d, shift), e, y[..p + 1])
  {
    hide Val, Runs, Out, LnRow, At;
    RowSlice(m, s, d, p, 0, d);
    assert m[p][0..0 + d] == m[p];
    SliceSim(l.b, e, x, Flatten(m), At(p, d, 0), d);
    var b1 := SliceB(l.b, x, At(p, d, 0), d);
    LayerNormSim(b1, e, Out(b1), m[p], t.invSqrt, shift);
    var b2 := LayerNormB(b1, Out(b1), TABLE_INVSQRT, shift);
    PushSim(b, l, e, y[..p], b2, y[p]);
    assert y[..p + 1] == y[..p] + [y[p]];
  }

  /** Per-position normalization. */
  lemma LnPerPosSim(b: BState, e: Env, x: nat, m: Mat, s: nat, d: nat, shift: nat, t: Tables)
    requires Runs(b, e) && HasTables(e, t) && Val(b, e, x) == Some(Flatten(m))
    requires IsMat(m, s, d) && d > 0 && s * d < TWO32 && LnRows(m, t.invSqrt, shift).Some?
    ensures Yields(b, LnPerPosB(b, x, s, d, shift), e, Flatten(LnRows(m, t.invSqrt, shift).value))
  {
    hide Val, Runs, LnRowB;
    var y := LnRows(m, t.invSqrt, shift).value;
    for p := 0 to s
      invariant Collects(b, LnLoop(b, x, d, shift, p), e, y[..p])
    {
      LnRowSim(b, LnLoop(b, x, d, shift, p), e, x, m, s, d, shift, t, y, p);
    }
    assert y[..s] == y;
    ConcatSim(b, LnLoop(b, x, d, shift, s), e, y);
  }

  /** A band of columns. */
  lemma ExtractColsSim(b: BState, e: Env, src: nat, m: Mat, s: nat, width: nat, col: nat, len: nat)
    requires Runs(b, e) && Val(b, e, src) == Some(Flatten(m))
    requires IsMat(m, s, width) && col + len <= width && s * width < TWO32
    ensures Yields(b, ExtractColsB(b, src, s, width, col, len), e, Flatten(Cols(m, width, col, len)))
  {
    hide Val, Runs, SliceB, At;
    var y := Cols(m, width, col, len);
    for p := 0 to s
      invariant Collects(b, BandLoop(b, src, width, col, len, p), e, y[..p])
    {
      var l := BandLoop(b, src, width, col, len, p);
      RowSlice(m, s, width, p, col, len);
      SliceSim(l.b, e, src, Flatten(m), At(p, width, col), len);
      PushSim(b, l, e, y[..p], SliceB(l.b, src, At(p, width, col), len), y[p]);
      assert y[..p + 1] == y[..p] + [y[p]];
    }
    assert y[..s] == y;
    ConcatSim(b, BandLoop(b, src, width, col, len, s), e, y);
  }

  // ---------------------------------------------------------------- attention heads

  /** What the direct semantics and the casts ask of a step. */
  predicate StepOk(n: Dims, dp: DerivedParams, t: Tables) {
    n.s >= 1 && n.d >= 1 && FitsU32(n) && SoftmaxSafe(t.exp, dp.softmaxOne)
  }

  lemma Fits(n: Dims)
    requires FitsU32(n)
    ensures n.s * n.d < TWO32 && n.s * n.Inner() < TWO32
    ensures n.h >= 1 ==> n.dh < TWO32 && n.s * n.dh < TWO32
  {
    var inner := n.Inner();
    MulMono(0, n.s, n.d);
    MulMono(0, n.s, inner);
    assert n.s * (6 * n.d) == 6 * (n.s * n.d);
    assert n.s * (3 * inner) == 3 * (n.s * inner);
    if n.h >= 1 {
      MulMono(1, n.h, n.dh);
      MulMono(n.dh, inner, n.s);
    }
  }

  lemma HeadInSim(b: BState, e: Env, q: nat, k: nat, v: nat, qm: Mat, km: Mat, vm: Mat, n: Dims, i: nat)
    requires Runs(b, e) && FitsU32(n) && i < n.h
    requires IsMat(qm, n.s, n.Inner()) && IsMat(km, n.s, n.Inner()) && IsMat(vm, n.s, n.Inner())
    requires Val(b, e, q) == Some(Flatten(qm)) && Val(b, e, k) == Some(Flatten(km)) && Val(b, e, v) == Some(Flatten(vm))
    ensures var (b', qh, kh, vh) := HeadInB(b, q, k, v, n, i);
            var off, inner := HeadOff(n, i), n.Inner();
            && Runs(b', e) && Keeps(b, b', e)
            && Val(b', e, qh) == Some(Flatten(Cols(qm, inner, off, n.dh)))
            && Val(b', e, kh) == Some(Flatten(Cols(km, inner, off, n.dh)))
            && Val(b', e, vh) == Some(Flatten(Cols(vm, inner, off, n.dh)))
  {
    hide Val, Runs, Out, ExtractColsB, Cols;
    Fits(n);
    var off, inner := HeadOff(n, i), n.Inner();
    assert off == At(i, n.dh, 0);
    ExtractColsSim(b, e, q, qm, n.s, inner, off, n.dh);
    var b1 := ExtractColsB(b, q, n.s, inner, off, n.dh);
    ExtractColsSim(b1, e, k, km, n.s, inner, off, n.dh);
    var b2 := ExtractColsB(b1, k, n.s, inner, off, n.dh);
    ExtractColsSim(b2, e, v, vm, n.s, inner, off, n.dh);
  }

  lemma HeadMixSim(b: BState, e: Env, qh: nat, kh: nat, vh: nat, qm: Mat, km: Mat, vm: Mat, n: Dims,
                   dp: DerivedParams, t: Tables)
    requires Runs(b, e) && StepOk(n, dp, t) && HasTables(e, t) && n.h >= 1
    requires IsMat(qm, n.s, n.dh) && IsMat(km, n.s, n.dh) && IsMat(vm, n.s, n.dh)
    requires Val(b, e, qh) == Some(Flatten(qm)) && Val(b, e, kh) == Some(Flatten(km))
             && Val(b, e, vh) == Some(Flatten(vm))
    requires HeadMix(qm, km, vm, n, dp, t).Some?
    ensures Yields(b, HeadMixB(b, qh, kh, vh, n, dp), e, Flatten(HeadMix(qm, km, vm, n, dp, t).value))
  {
    hide Val, Runs, Out, HeadMixB, RequantMat, TimesTransposed, Times, SoftmaxRowsInt, Flatten, FindTable, FitsU32,
         SoftmaxSafe, Keeps;
    var scores := RequantMat(TimesTransposed(qm, km, n.dh), dp.scoreShift);
    var prob := SoftmaxRowsInt(scores, t.exp, dp.softmaxOne).value;
    StagesSim(b, e, qh, kh, vh, qm, km, vm, n, dp, t, scores, prob);
  }

  lemma StagesSim(b: BState, e: Env, qh: nat, kh: nat, vh: nat, qm: Mat, km: Mat, vm: Mat, n: Dims,
                  dp: DerivedParams, t: Tables, scores: Mat, prob: Mat)
    requires Runs(b, e) && StepOk(n, dp, t) && HasTables(e, t) && n.h >= 1
    requires IsMat(qm, n.s, n.dh) && IsMat(km, n.s, n.dh) && IsMat(vm, n.s, n.dh)
    requires Val(b, e, qh) == Some(Flatten(qm)) && Val(b, e, kh) == Some(Flatten(km))
             && Val(b, e, vh) == Some(Flatten(vm))
    requires scores == RequantMat(TimesTransposed(qm, km, n.dh), dp.scoreShift)
    requires SoftmaxRowsInt(scores, t.exp, dp.softmaxOne) == Some(prob)
    requires IsMat(scores, n.s, n.s) && IsMat(prob, n.s, n.s)
    ensures Yields(b, HeadMixB(b, qh, kh, vh, n, dp), e, Flatten(RequantMat(Times(prob, vm, n.s, n.dh), dp.ohShift)))
  {
    hide Val, Runs, Out, MatMulB, RequantB, SoftmaxB, RequantMat, TimesTransposed, Times, SoftmaxRowsInt, Flatten,
         FindTable, SoftmaxSafe, IsMat;
    ScoresSim(b, e, qh, kh, qm, km, n, dp);
    var b1 := MatMulB(b, qh, kh, n.s, n.dh, n.s, true);
    var b2 := RequantB(b1, Out(b1), dp.scoreShift);
    SoftmaxSim(b2, e, Out(b2), scores, n.s, n.s, t.exp, dp.softmaxOne);
    var b3 := SoftmaxB(b2, Out(b2), TABLE_EXP, n.s, dp.softmaxOne);
    MixSim(b3, e, Out(b3), vh, prob, vm, n, dp);
  }

  lemma ScoresSim(b: BState, e: Env, qh: nat, kh: nat, qm: Mat, km: Mat, n: Dims, dp: DerivedParams)
    requires Runs(b, e) && FitsU32(n) && n.h >= 1 && IsMat(qm, n.s, n.dh) && IsMat(km, n.s, n.dh)
    requires Val(b, e, qh) == Some(Flatten(qm)) && Val(b, e, kh) == Some(Flatten(km))
    ensures var b1 := MatMulB(b, qh, kh, n.s, n.dh, n.s, true);
            Yields(b, RequantB(b1, Out(b1), dp.scoreShift), e,
                   Flatten(RequantMat(TimesTransposed(qm, km, n.dh), dp.scoreShift)))
  {
    hide Val, Runs, Out, MatMulB, RequantB, RequantMat, TimesTransposed, Flatten;
    Fits(n);
    var raw := TimesTransposed(qm, km, n.dh);
    TimesTransposedFlat(qm, km, n.s, n.dh, n.s);
    MatMulSim(b, e, qh, kh, Flatten(qm), Flatten(km), n.s, n.dh, n.s, true);
    var b1 := MatMulB(b, qh, kh, n.s, n.dh, n.s, true);
    RequantFlat(raw, n.s, n.s, dp.scoreShift);
    RequantSim(b1, e, Out(b1), Flatten(raw), dp.scoreShift);
  }

  lemma MixSim(b: BState, e: Env, ph: nat, vh: nat, prob: Mat, vm: Mat, n: Dims, dp: DerivedParams)
    requires Runs(b, e) && FitsU32(n) && n.h >= 1 && IsMat(prob, n.s, n.s) && IsMat(vm, n.s, n.dh)
    requires Val(b, e, ph) == Some(Flatten(prob)) && Val(b, e, vh) == Some(Flatten(vm))
    ensures var b1 := MatMulB(b, ph, vh, n.s, n.s, n.dh, false);
            Yields(b, RequantB(b1, Out(b1), dp.ohShift), e,
                   Flatten(RequantMat(Times(prob, vm, n.s, n.dh), dp.ohShift)))
  {
    hide Val, Runs, Out, MatMulB, RequantB, RequantMat, Times, Flatten;
    Fits(n);
    var mix := Times(prob, vm, n.s, n.dh);
    TimesFlat(prob, vm, n.s, n.s, n.dh);
    MatMulSim(b, e, ph, vh, Flatten(prob), Flatten(vm), n.s, n.s, n.dh, false);
    var b1 := MatMulB(b, ph, vh, n.s, n.s, n.dh, false);
    RequantFlat(mix, n.s, n.dh, dp.ohShift);
    RequantSim(b1, e, Out(b1), Flatten(mix), dp.ohShift);
  }

  lemma HeadSim(b: BState, e: Env, q: nat, k: nat, v: nat, qm: Mat, km: Mat, vm: Mat, n: Dims, i: nat,
                dp: DerivedParams, t: Tables)
    requires Runs(b, e) && StepOk(n, dp, t) && HasTables(e, t) && i < n.h
    requires IsMat(qm, n.s, n.Inner()) && IsMat(km, n.s, n.Inner()) && IsMat(vm, n.s, n.Inner())
    requires Val(b, e, q) == Some(Flatten(qm)) && Val(b, e, k) == Some(Flatten(km)) && Val(b, e, v) == Some(Flatten(vm))
    requires HeadOut(qm, km, vm, n, i, dp, t).Some?
    ensures Yields(b, HeadB(b, q, k, v, n, i, dp), e, Flatten(HeadOut(qm, km, vm, n, i, dp, t).value))
  {
    hide Val, Runs, Out, HeadInB, HeadMixB, HeadMix;
    HeadInSim(b, e, q, k, v, qm, km, vm, n, i);
    var (b1, qh, kh, vh) := HeadInB(b, q, k, v, n, i);
    var off, inner := HeadOff(n, i), n.Inner();
    HeadMixSim(b1, e, qh, kh, vh, Cols(qm, inner, off, n.dh), Cols(km, inner, off, n.dh), Cols(vm, inner, off, n.dh),
               n, dp, t);
  }

  /** Every head's output, in order. */
  ghost predicate HeadOuts(qm: Mat, km: Mat, vm: Mat, n: Dims, dp: DerivedParams, t: Tables, outs: seq<Mat>)
    requires n.s >= 1 && IsMat(qm, n.s, n.Inner()) && IsMat(km, n.s, n.Inner()) && IsMat(vm, n.s, n.Inner())
  {
    |outs| == n.h && forall i :: 0 <= i < n.h ==> HeadOut(qm, km, vm, n, i, dp, t) == Some(outs[i])
  }

  function Flats(outs: seq<Mat>): (f: Mat)
    ensures |f| == |outs|
  {
    seq(|outs|, i requires 0 <= i < |outs| => Flatten(outs[i]))
  }

  lemma HeadStepSim(b: BState, l: Listed, e: Env, q: nat, k: nat, v: nat, qm: Mat, km: Mat, vm: Mat, n: Dims, i: nat,
                    dp: DerivedParams, t: Tables, rows: Mat)
    requires i < n.h == |rows| && Collects(b, l, e, rows[..i]) && StepOk(n, dp, t) && HasTables(e, t)
    requires IsMat(qm, n.s, n.Inner()) && IsMat(km, n.s, n.Inner()) && IsMat(vm, n.s, n.Inner())
    requires Val(b, e, q) == Some(Flatten(qm)) && Val(b, e, k) == Some(Flatten(km)) && Val(b, e, v) == Some(Flatten(vm))
    requires HeadOut(qm, km, vm, n, i, dp, t).Some? && rows[i] == Flatten(HeadOut(qm, km, vm, n, i, dp, t).value)
    ensures var b' := HeadB(l.b, q, k, v, n, i, dp);
            Collects(b, Listed(b', l.ids + [Out(b')]), e, rows[..i + 1])
  {
    hide Val, Runs, Out, HeadB, HeadOut, HasTables, StepOk, IsMat, Dims.Inner;
    HeadSim(l.b, e, q, k, v, qm, km, vm, n, i, dp, t);
    PushSim(b, l, e, rows[..i], HeadB(l.b, q, k, v, n, i, dp), rows[i]);
    assert rows[..i + 1] == rows[..i] + [rows[i]];
  }

  lemma Begin(b: BState, e: Env)
    requires Runs(b, e)
    ensures Collects(b, Listed(b, []), e, [])
  {
  }

  lemma HeadLoopSim(b: BState, e: Env, q: nat, k: nat, v: nat, qm: Mat, km: Mat, vm: Mat, n: Dims, dp: DerivedParams,
                    t: Tables, outs: seq<Mat>)
    requires Runs(b, e) && StepOk(n, dp, t) && HasTables(e, t)
    requires IsMat(qm, n.s, n.Inner()) && IsMat(km, n.s, n.Inner()) && IsMat(vm, n.s, n.Inner())
    requires Val(b, e, q) == Some(Flatten(qm)) && Val(b, e, k) == Some(Flatten(km)) && Val(b, e, v) == Some(Flatten(vm))
    requires HeadOuts(qm, km, vm, n, dp, t, outs)
    ensures Collects(b, HeadLoop(b, q, k, v, n, dp, n.h), e, Flats(outs))
  {
    hide Val, Runs, Out, HeadB, HeadOut, Collects, HasTables, StepOk, IsMat, Dims.Inner;
    var rows := Flats(outs);
    Begin(b, e);
    for i := 0 to n.h
      invariant Collects(b, HeadLoop(b, q, k, v, n, dp, i), e, rows[..i])
    {
      HeadStepSim(b, HeadLoop(b, q, k, v, n, dp, i), e, q, k, v, qm, km, vm, n, i, dp, t, rows);
    }
    assert rows[..n.h] == rows;
  }

  /** Position `p` of the first `i` heads. */
  function Parts(outs: seq<Mat>, s: nat, p: nat, i: nat): (r: Mat)
    requires i <= |outs| && p < s && forall j :: 0 <= j < |outs| ==> |outs[j]| == s
    ensures |r| == i && forall j :: 0 <= j < i ==> r[j] == outs[j][p]
  {
    seq(i, j requires 0 <= j < i => outs[j][p])
  }

  /** The parts of the first `p` positions, position-major. */
  function AllParts(outs: seq<Mat>, s: nat, p: nat): Mat
    requires p <= s && forall j :: 0 <= j < |outs| ==> |outs[j]| == s
  {
    if p == 0 then [] else AllParts(outs, s, p - 1) + Parts(outs, s, p - 1, |outs|)
  }

  lemma PartStepSim(b: BState, l: Listed, e: Env, head: nat, out: Mat, n: Dims, rows: Mat, p: nat)
    requires Collects(b, l, e, rows) && FitsU32(n) && n.h >= 1 && p < n.s && IsMat(out, n.s, n.dh)
    requires Val(b, e, head) == Some(Flatten(out))
    ensures Collects(b, SliceRow(l, head, At(p, n.dh, 0), n.dh), e, rows + [out[p]])
  {
    hide Val, Runs, Out, SliceB, At;
    Fits(n);
    var start := At(p, n.dh, 0);
    RowSlice(out, n.s, n.dh, p, 0, n.dh);
    assert out[p][0..0 + n.dh] == out[p];
    SliceSim(l.b, e, head, Flatten(out), start, n.dh);
    PushSim(b, l, e, rows, SliceB(l.b, head, start, n.dh), out[p]);
  }

  /** The buffers hold the heads' outputs. */
  ghost predicate HeadsIn(b: BState, e: Env, heads: seq<nat>, outs: seq<Mat>, n: Dims) {
    && |heads| == |outs| == n.h
    && forall j :: 0 <= j < |outs| ==>
         |outs[j]| == n.s && IsMat(outs[j], n.s, n.dh) && Val(b, e, heads[j]) == Some(Flatten(outs[j]))
  }

  lemma PartsSnoc(rows: Mat, outs: seq<Mat>, s: nat, p: nat, i: nat)
    requires i < |outs| && p < s && forall j :: 0 <= j < |outs| ==> |outs[j]| == s
    ensures rows + Parts(outs, s, p, i + 1) == (rows + Parts(outs, s, p, i)) + [outs[i][p]]
  {
    assert Parts(outs, s, p, i + 1) == Parts(outs, s, p, i) + [outs[i][p]];
  }

  lemma HeadShapes(b: BState, e: Env, heads: seq<nat>, outs: seq<Mat>, n: Dims)
    requires HeadsIn(b, e, heads, outs, n)
    ensures |heads| == |outs| == n.h && forall j :: 0 <= j < |outs| ==> |outs[j]| == n.s
  {
  }

  lemma HeadAt(b: BState, e: Env, heads: seq<nat>, outs: seq<Mat>, n: Dims, i: nat)
    requires HeadsIn(b, e, heads, outs, n) && i < |heads|
    ensures i < |outs| && IsMat(outs[i], n.s, n.dh) && Val(b, e, heads[i]) == Some(Flatten(outs[i]))
  {
    hide Val, IsMat;
  }

  lemma PartRowSim(b: BState, l: Listed, e: Env, heads: seq<nat>, outs: seq<Mat>, n: Dims, rows: Mat, p: nat)
    requires Collects(b, l, e, rows) && FitsU32(n) && p < n.s && HeadsIn(b, e, heads, outs, n)
    ensures Collects(b, PartRow(l, heads, At(p, n.dh, 0), n.dh, |heads|), e, rows + Parts(outs, n.s, p, |outs|))
  {
    hide Val, Runs, Out, SliceRow, At, Collects, FitsU32, Keeps, Flatten, IsMat, HeadsIn;
    var start := At(p, n.dh, 0);
    HeadShapes(b, e, heads, outs, n);
    assert rows + Parts(outs, n.s, p, 0) == rows;
    for i := 0 to |heads|
      invariant Collects(b, PartRow(l, heads, start, n.dh, i), e, rows + Parts(outs, n.s, p, i))
    {
      HeadAt(b, e, heads, outs, n, i);
      PartStepSim(b, PartRow(l, heads, start, n.dh, i), e, heads[i], outs[i], n, rows + Parts(outs, n.s, p, i), p);
      PartsSnoc(rows, outs, n.s, p, i);
    }
  }

  lemma PartLoopSim(b: BState, e: Env, heads: seq<nat>, outs: seq<Mat>, n: Dims)
    requires Runs(b, e) && FitsU32(n) && HeadsIn(b, e, heads, outs, n)
    ensures Collects(b, PartLoop(b, heads, n.dh, n.s), e, AllParts(outs, n.s, n.s))
  {
    hide Val, Runs, Out, At, PartRow, Collects, FitsU32;
    Begin(b, e);
    for p := 0 to n.s
      invariant Collects(b, PartLoop(b, heads, n.dh, p), e, AllParts(outs, n.s, p))
    {
      PartRowSim(b, PartLoop(b, heads, n.dh, p), e, heads, outs, n, AllParts(outs, n.s, p), p);
    }
  }

  // Reassembly: the slices, position by position, are the matrix of written columns.

  /** Columns written by the first `i` heads. */
  function Filled(n: Dims, i: nat): (w: nat)
    requires i <= n.h
    ensures w <= n.Inner() && (i == 0 ==> w == 0) && (i == n.h ==> w == n.Inner())
  {
    MulMono(0, i, n.dh);
    MulMono(i, n.h, n.dh);
    i * n.dh
  }

  lemma PutHeadRow(heads: Mat, out: Mat, n: Dims, i: nat, p: nat)
    requires i < n.h && IsMat(heads, n.s, n.Inner()) && IsMat(out, n.s, n.dh) && p < n.s
    ensures PutHead(heads, out, n, i)[p][..Filled(n, i + 1)] == heads[p][..Filled(n, i)] + out[p]
  {
    RowBounds(i, n.h, n.dh);
    Splice(heads[p], i * n.dh, out[p]);
  }

  lemma Splice(row: seq<int>, off: nat, part: seq<int>)
    requires off + |part| <= |row|
    ensures (row[..off] + part + row[off + |part|..])[..off + |part|] == row[..off] + part
  {
  }

  /** The written prefix of row `p` is that position's parts. */
  ghost predicate RowDone(h: Option<Mat>, outs: seq<Mat>, n: Dims, i: nat, p: nat)
    requires i <= n.h && |outs| == n.h && p < n.s
    requires forall j :: 0 <= j < |outs| ==> |outs[j]| == n.s && IsMat(outs[j], n.s, n.dh)
  {
    h.Some? && IsMat(h.value, n.s, n.Inner()) && h.value[p][..Filled(n, i)] == Flatten(Parts(outs, n.s, p, i))
  }

  lemma RowStep(h: Mat, outs: seq<Mat>, n: Dims, i: nat, p: nat)
    requires i < n.h && |outs| == n.h && p < n.s
    requires forall j :: 0 <= j < |outs| ==> |outs[j]| == n.s && IsMat(outs[j], n.s, n.dh)
    requires IsMat(h, n.s, n.Inner()) && RowDone(Some(h), outs, n, i, p)
    ensures RowDone(Some(PutHead(h, outs[i], n, i)), outs, n, i + 1, p)
  {
    PutHeadRow(h, outs[i], n, i, p);
    assert Parts(outs, n.s, p, i + 1) == Parts(outs, n.s, p, i) + [outs[i][p]];
    FlattenSnoc(Parts(outs, n.s, p, i), outs[i][p]);
  }

  lemma HeadsRow(qm: Mat, km: Mat, vm: Mat, n: Dims, dp: DerivedParams, t: Tables, outs: seq<Mat>, i: nat, p: nat)
    requires n.s >= 1 && IsMat(qm, n.s, n.Inner()) && IsMat(km, n.s, n.Inner()) && IsMat(vm, n.s, n.Inner())
    requires HeadOuts(qm, km, vm, n, dp, t, outs) && i <= n.h && p < n.s
    requires forall j :: 0 <= j < |outs| ==> |outs[j]| == n.s && IsMat(outs[j], n.s, n.dh)
    ensures RowDone(Heads(qm, km, vm, n, i, dp, t), outs, n, i, p)
  {
    hide HeadOut, PutHead, Heads, Flatten, Parts, RowDone, Filled;
    RowStart(qm, km, vm, n, dp, t, outs, p);
    for j := 0 to i
      invariant RowDone(Heads(qm, km, vm, n, j, dp, t), outs, n, j, p)
    {
      RowDefined(Heads(qm, km, vm, n, j, dp, t), outs, n, j, p);
      HeadsStep(qm, km, vm, n, j, dp, t);
      RowStep(Heads(qm, km, vm, n, j, dp, t).value, outs, n, j, p);
    }
  }

  lemma RowStart(qm: Mat, km: Mat, vm: Mat, n: Dims, dp: DerivedParams, t: Tables, outs: seq<Mat>, p: nat)
    requires n.s >= 1 && IsMat(qm, n.s, n.Inner()) && IsMat(km, n.s, n.Inner()) && IsMat(vm, n.s, n.Inner())
    requires |outs| == n.h && p < n.s && forall j :: 0 <= j < |outs| ==> |outs[j]| == n.s && IsMat(outs[j], n.s, n.dh)
    ensures RowDone(Heads(qm, km, vm, n, 0, dp, t), outs, n, 0, p)
  {
    assert Parts(outs, n.s, p, 0) == [];
  }

  lemma RowDefined(h: Option<Mat>, outs: seq<Mat>, n: Dims, i: nat, p: nat)
    requires i <= n.h && |outs| == n.h && p < n.s
    requires forall j :: 0 <= j < |outs| ==> |outs[j]| == n.s && IsMat(outs[j], n.s, n.dh)
    requires RowDone(h, outs, n, i, p)
    ensures h.Some? && IsMat(h.value, n.s, n.Inner())
  {
  }

  lemma {:induction false} PartsAreRows(outs: seq<Mat>, h: Mat, s: nat, p: nat)
    requires p <= s == |h| && forall j :: 0 <= j < |outs| ==> |outs[j]| == s
    requires forall r :: 0 <= r < s ==> Flatten(Parts(outs, s, r, |outs|)) == h[r]
    ensures Flatten(AllParts(outs, s, p)) == Flatten(h[..p])
  {
    assert Flatten(AllParts(outs, s, 0)) == Flatten(h[..0]) == [];
    hide Flatten, Parts;
    for r := 0 to p
      invariant Flatten(AllParts(outs, s, r)) == Flatten(h[..r])
    {
      FlattenAppend(AllParts(outs, s, r), Parts(outs, s, r, |outs|));
      FlattenPrefix(h, r);
    }
  }

  lemma HeadsAreParts(qm: Mat, km: Mat, vm: Mat, n: Dims, dp: DerivedParams, t: Tables, outs: seq<Mat>)
    requires n.s >= 1 && IsMat(qm, n.s, n.Inner()) && IsMat(km, n.s, n.Inner()) && IsMat(vm, n.s, n.Inner())
    requires HeadOuts(qm, km, vm, n, dp, t, outs)
    requires forall j :: 0 <= j < |outs| ==> |outs[j]| == n.s && IsMat(outs[j], n.s, n.dh)
    ensures Heads(qm, km, vm, n, n.h, dp, t).Some?
    ensures Flatten(AllParts(outs, n.s, n.s)) == Flatten(Heads(qm, km, vm, n, n.h, dp, t).value)
  {
    hide Heads, AllParts, Flatten, Parts;
    HeadsRow(qm, km, vm, n, dp, t, outs, n.h, 0);
    var h := Heads(qm, km, vm, n, n.h, dp, t).value;
    forall p | 0 <= p < n.s ensures Flatten(Parts(outs, n.s, p, |outs|)) == h[p] {
      HeadsRow(qm, km, vm, n, dp, t, outs, n.h, p);
      assert h[p][..n.Inner()] == h[p];
    }
    PartsAreRows(outs, h, n.s, n.s);
    assert h[..n.s] == h;
  }

  // -------------------------------------------------------------------- sub-blocks

  /** If the heads matrix is defined, so is every head's output. */
  lemma OutsOfHeads(qm: Mat, km: Mat, vm: Mat, n: Dims, dp: DerivedParams, t: Tables) returns (outs: seq<Mat>)
    requires n.s >= 1 && IsMat(qm, n.s, n.Inner()) && IsMat(km, n.s, n.Inner()) && IsMat(vm, n.s, n.Inner())
    requires Heads(qm, km, vm, n, n.h, dp, t).Some?
    ensures HeadOuts(qm, km, vm, n, dp, t, outs)
    ensures forall j :: 0 <= j < |outs| ==> |outs[j]| == n.s && IsMat(outs[j], n.s, n.dh)
  {
    forall i | 0 <= i < n.h ensures HeadOut(qm, km, vm, n, i, dp, t).Some? {
      HeadDefined(qm, km, vm, n, n.h, dp, t, i);
    }
    outs := seq(n.h, i requires 0 <= i < n.h => HeadOut(qm, km, vm, n, i, dp, t).value);
  }

  lemma HeadsSim(b: BState, e: Env, q: nat, k: nat, v: nat, qm: Mat, km: Mat, vm: Mat, n: Dims, dp: DerivedParams,
                 t: Tables)
    requires Runs(b, e) && StepOk(n, dp, t) && HasTables(e, t)
    requires IsMat(qm, n.s, n.Inner()) && IsMat(km, n.s, n.Inner()) && IsMat(vm, n.s, n.Inner())
    requires Val(b, e, q) == Some(Flatten(qm)) && Val(b, e, k) == Some(Flatten(km)) && Val(b, e, v) == Some(Flatten(vm))
    requires Heads(qm, km, vm, n, n.h, dp, t).Some?
    ensures Yields(b, HeadsB(b, q, k, v, n, dp), e, Flatten(Heads(qm, km, vm, n, n.h, dp, t).value))
  {
    hide Val, Runs, Out, HeadLoop, PartLoop, ConcatB, Heads, HasTables, HeadOuts, Dims.Inner;
    var outs := OutsOfHeads(qm, km, vm, n, dp, t);
    HeadLoopSim(b, e, q, k, v, qm, km, vm, n, dp, t, outs);
    var l := HeadLoop(b, q, k, v, n, dp, n.h);
    assert |outs| == n.h by { OutsCount(qm, km, vm, n, dp, t, outs); }
    PartLoopSim(l.b, e, l.ids, outs, n);
    ConcatSim(l.b, PartLoop(l.b, l.ids, n.dh, n.s), e, AllParts(outs, n.s, n.s));
    HeadsAreParts(qm, km, vm, n, dp, t, outs);
  }

  lemma OutsCount(qm: Mat, km: Mat, vm: Mat, n: Dims, dp: DerivedParams, t: Tables, outs: seq<Mat>)
    requires n.s >= 1 && IsMat(qm, n.s, n.Inner()) && IsMat(km, n.s, n.Inner()) && IsMat(vm, n.s, n.Inner())
    requires HeadOuts(qm, km, vm, n, dp, t, outs)
    ensures |outs| == n.h
  {
  }

  /** A weight linear followed by its requant. */
  lemma ProjectSim(b: BState, e: Env, x: nat, m: Mat, s: nat, id: nat, rows: nat, cols: nat, w: seq<int>, shift: nat)
    requires Runs(b, e) && Val(b, e, x) == Some(Flatten(m)) && IsMat(m, s, cols)
    requires HasWeight(e, id, rows, cols, w) && s < TWO32
    ensures var b1 := BatchedLinearB(b, x, id, s);
            Yields(b, RequantB(b1, Out(b1), shift), e, Flatten(RequantMat(LinearInt(m, w, rows, cols), shift)))
  {
    hide Val, Runs, Out, BatchedLinearB, RequantB, LinearInt, RequantMat;
    BatchedLinearSim(b, e, x, m, s, id, rows, cols, w);
    var b1 := BatchedLinearB(b, x, id, s);
    var y := LinearInt(m, w, rows, cols);
    RequantSim(b1, e, Out(b1), Flatten(y), shift);
    RequantFlat(y, s, rows, shift);
  }

  /** Queries, keys and values in one projection. */
  function Fused(a: Mat, w: seq<int>, s: nat, d: nat, inner: nat, shift: nat): (y: Mat)
    requires IsMat(a, s, d) && |w| == (3 * inner) * d
    ensures IsMat(y, s, 3 * inner)
  {
    RequantMat(LinearInt(a, w, 3 * inner, d), shift)
  }

  /** The three bands of a fused projection are in their buffers. */
  ghost predicate Bands(b: BState, b': BState, e: Env, q: nat, k: nat, v: nat, m: Mat, s: nat, inner: nat)
    requires IsMat(m, s, 3 * inner)
  {
    && Runs(b', e) && Keeps(b, b', e)
    && Val(b', e, q) == Some(Flatten(Cols(m, 3 * inner, 0, inner)))
    && Val(b', e, k) == Some(Flatten(Cols(m, 3 * inner, inner, inner)))
    && Val(b', e, v) == Some(Flatten(Cols(m, 3 * inner, 2 * inner, inner)))
  }

  lemma QkvSim(b: BState, e: Env, x: nat, m: Mat, n: Dims, id: nat, w: seq<int>, dp: DerivedParams, bs: BlockShifts,
               t: Tables, a0: Mat, inner: nat)
    requires Runs(b, e) && StepOk(n, dp, t) && HasTables(e, t) && Val(b, e, x) == Some(Flatten(m)) && IsMat(m, n.s, n.d)
    requires inner == n.Inner() && |w| == (3 * inner) * n.d && HasWeight(e, id, 3 * inner, n.d, w)
    requires LnRows(m, t.invSqrt, dp.lnShift) == Some(a0) && IsMat(a0, n.s, n.d)
    ensures var (b', q, k, v) := QkvB(b, x, n, id, dp, bs);
            Bands(b, b', e, q, k, v, Fused(a0, w, n.s, n.d, inner, bs.qkv), n.s, inner)
  {
    hide Val, Runs, Out, LnPerPosB, BatchedLinearB, RequantB, ExtractColsB, LnRows, LinearInt, RequantMat, Cols,
         HasWeight, Dims.Inner;
    Fits(n);
    LnPerPosSim(b, e, x, m, n.s, n.d, dp.lnShift, t);
    var b1 := LnPerPosB(b, x, n.s, n.d, dp.lnShift);
    ProjectSim(b1, e, Out(b1), a0, n.s, id, 3 * inner, n.d, w, bs.qkv);
    var b2 := BatchedLinearB(b1, Out(b1), id, n.s);
    var b3 := RequantB(b2, Out(b2), bs.qkv);
    BandsSim(b3, e, Out(b3), RequantMat(LinearInt(a0, w, 3 * inner, n.d), bs.qkv), n.s, inner);
  }

  lemma BandsSim(b: BState, e: Env, src: nat, m: Mat, s: nat, inner: nat)
    requires Runs(b, e) && Val(b, e, src) == Some(Flatten(m)) && IsMat(m, s, 3 * inner) && s * (3 * inner) < TWO32
    ensures var b1 := ExtractColsB(b, src, s, 3 * inner, 0, inner);
            var b2 := ExtractColsB(b1, src, s, 3 * inner, inner, inner);
            var b3 := ExtractColsB(b2, src, s, 3 * inner, 2 * inner, inner);
            Bands(b, b3, e, Out(b1), Out(b2), Out(b3), m, s, inner)
  {
    hide Val, Runs, Out, ExtractColsB, Cols;
    ExtractColsSim(b, e, src, m, s, 3 * inner, 0, inner);
    var b1 := ExtractColsB(b, src, s, 3 * inner, 0, inner);
    ExtractColsSim(b1, e, src, m, s, 3 * inner, inner, inner);
    var b2 := ExtractColsB(b1, src, s, 3 * inner, inner, inner);
    ExtractColsSim(b2, e, src, m, s, 3 * inner, 2 * inner, inner);
  }

  ghost predicate HasBlock(e: Env, w: BlockWeights, n: Dims, qb: QuantBlock) {
    && HasWeight(e, w.adaln, 6 * n.d, n.d, qb.adaln)
    && HasWeight(e, w.qkv, 3 * n.Inner(), n.d, qb.qkv)
    && HasWeight(e, w.out, n.d, n.Inner(), qb.out)
    && HasWeight(e, w.fc1, n.mlp, n.d, qb.fc1)
    && HasWeight(e, w.fc2, n.d, n.mlp, qb.fc2)
  }

  lemma AttnSim(b: BState, e: Env, x: nat, m: Mat, n: Dims, w: BlockWeights, qb: QuantBlock, dp: DerivedParams,
                bs: BlockShifts, t: Tables)
    requires Runs(b, e) && StepOk(n, dp, t) && HasTables(e, t) && Val(b, e, x) == Some(Flatten(m)) && IsMat(m, n.s, n.d)
    requires qb.Shaped(n) && HasBlock(e, w, n, qb) && AttnMat(m, qb, n, dp, bs, t).Some?
    ensures Yields(b, AttnB(b, x, n, w, dp, bs), e, Flatten(AttnMat(m, qb, n, dp, bs, t).value))
  {
    hide Val, Runs, Out, QkvB, HeadsB, BatchedLinearB, RequantB, LnRows, LinearInt, RequantMat, Heads, HasWeight,
         Dims.Inner;
    var inner := n.Inner();
    var a0 := LnRows(m, t.invSqrt, dp.lnShift).value;
    QkvSim(b, e, x, m, n, w.qkv, qb.qkv, dp, bs, t, a0, inner);
    var (b1, q, k, v) := QkvB(b, x, n, w.qkv, dp, bs);
    var qkv := RequantMat(LinearInt(a0, qb.qkv, 3 * inner, n.d), bs.qkv);
    var qm, km, vm := Cols(qkv, 3 * inner, 0, inner), Cols(qkv, 3 * inner, inner, inner),
        Cols(qkv, 3 * inner, 2 * inner, inner);
    HeadsSim(b1, e, q, k, v, qm, km, vm, n, dp, t);
    var b2 := HeadsB(b1, q, k, v, n, dp);
    ProjectSim(b2, e, Out(b2), Heads(qm, km, vm, n, n.h, dp, t).value, n.s, w.out, n.d, inner, qb.out, bs.out);
  }

  lemma FfnSim(b: BState, e: Env, x: nat, m: Mat, n: Dims, w: BlockWeights, qb: QuantBlock, dp: DerivedParams,
               bs: BlockShifts, t: Tables)
    requires Runs(b, e) && StepOk(n, dp, t) && HasTables(e, t) && Val(b, e, x) == Some(Flatten(m)) && IsMat(m, n.s, n.d)
    requires qb.Shaped(n) && HasBlock(e, w, n, qb) && FfnMat(m, qb, n, dp, bs, t).Some?
    ensures Yields(b, FfnB(b, x, n, w, dp, bs), e, Flatten(FfnMat(m, qb, n, dp, bs, t).value))
  {
    hide Val, Runs, Out, LnPerPosB, BatchedLinearB, RequantB, ActivationB, LnRows, LinearInt, RequantMat, EvalMat,
         HasWeight, Dims.Inner;
    Fits(n);
    LnPerPosSim(b, e, x, m, n.s, n.d, dp.lnShift, t);
    var b1 := LnPerPosB(b, x, n.s, n.d, dp.lnShift);
    var f0 := LnRows(m, t.invSqrt, dp.lnShift).value;
    ProjectSim(b1, e, Out(b1), f0, n.s, w.fc1, n.mlp, n.d, qb.fc1, bs.fc1);
    var b2 := BatchedLinearB(b1, Out(b1), w.fc1, n.s);
    var b3 := RequantB(b2, Out(b2), bs.fc1);
    var h1 := RequantMat(LinearInt(f0, qb.fc1, n.mlp, n.d), bs.fc1);
    ActivationSim(b3, e, Out(b3), h1, TABLE_GELU, t.gelu);
    var b4 := ActivationB(b3, Out(b3), TABLE_GELU);
    var g := EvalMat(t.gelu, h1).value;
    EvalMatShape(t.gelu, h1, n.s, n.mlp);
    ProjectSim(b4, e, Out(b4), g, n.s, w.fc2, n.d, n.mlp, qb.fc2, bs.fc2);
  }

  lemma EvalMatShape(t: ActivationTable, m: Mat, s: nat, width: nat)
    requires IsMat(m, s, width) && EvalMat(t, m).Some?
    ensures IsMat(EvalMat(t, m).value, s, width)
  {
  }

  lemma NormModSim(b: BState, e: Env, x: nat, sc: nat, sh: nat, m: Mat, scm: Mat, shm: Mat, n: Dims,
                   dp: DerivedParams, t: Tables)
    requires Runs(b, e) && StepOk(n, dp, t) && HasTables(e, t)
    requires IsMat(m, n.s, n.d) && IsMat(scm, n.s, n.d) && IsMat(shm, n.s, n.d)
    requires Val(b, e, x) == Some(Flatten(m)) && Val(b, e, sc) == Some(Flatten(scm))
             && Val(b, e, sh) == Some(Flatten(shm))
    requires LnRows(m, t.invSqrt, dp.lnShift).Some?
    ensures Yields(b, NormModB(b, x, sc, sh, n, dp), e,
                   Flatten(ModulateMat(LnRows(m, t.invSqrt, dp.lnShift).value, scm, shm, dp.modOne, dp.modBits, n.d)))
  {
    hide Val, Runs, Out, LnPerPosB, ModulateB, LnRows, ModulateMat;
    Fits(n);
    LnPerPosSim(b, e, x, m, n.s, n.d, dp.lnShift, t);
    var b1 := LnPerPosB(b, x, n.s, n.d, dp.lnShift);
    ModulateSim(b1, e, Out(b1), sc, sh, LnRows(m, t.invSqrt, dp.lnShift).value, scm, shm, dp.modOne, dp.modBits, n.s,
                n.d);
  }

  lemma ResidualSim(b: BState, e: Env, x: nat, g: nat, y: nat, xm: Mat, gm: Mat, ym: Mat, bits: nat, s: nat, d: nat)
    requires Runs(b, e) && IsMat(xm, s, d) && IsMat(gm, s, d) && IsMat(ym, s, d)
    requires Val(b, e, x) == Some(Flatten(xm)) && Val(b, e, g) == Some(Flatten(gm)) && Val(b, e, y) == Some(Flatten(ym))
    ensures Yields(b, ResidualB(b, x, g, y, bits), e, Flatten(GatedResidual(xm, gm, ym, bits, d)))
  {
    hide Val, Runs, Out, GateB, AddB, RequantB, GatedResidual, RequantAll;
    ResidualFlat(xm, gm, ym, bits, s, d);
    GateSim(b, e, g, y, Flatten(gm), Flatten(ym), bits);
    var b1 := GateB(b, g, y, bits);
    var gated := GateVec(Flatten(gm), Flatten(ym), Int8Requant(bits));
    AddSim(b1, e, x, Out(b1), Flatten(xm), gated);
    var b2 := AddB(b1, x, Out(b1));
    RequantSim(b2, e, Out(b2), ResidualAdd(Flatten(xm), gated), 0);
  }

  lemma AdalnSim(b: BState, e: Env, c: nat, cm: Mat, n: Dims, w: BlockWeights, qb: QuantBlock, dp: DerivedParams,
                 bs: BlockShifts, t: Tables)
    requires Runs(b, e) && StepOk(n, dp, t) && HasTables(e, t) && Val(b, e, c) == Some(Flatten(cm))
             && IsMat(cm, n.s, n.d)
    requires qb.Shaped(n) && HasBlock(e, w, n, qb) && EvalMat(t.silu, cm).Some?
    ensures IsMat(EvalMat(t.silu, cm).value, n.s, n.d)
    ensures Yields(b, AdalnB(b, c, n, w, bs), e,
                   Flatten(RequantMat(LinearInt(EvalMat(t.silu, cm).value, qb.adaln, 6 * n.d, n.d), bs.adaln)))
  {
    EvalMatShape(t.silu, cm, n.s, n.d);
    hide Val, Runs, Out, ActivationB, BatchedLinearB, RequantB, EvalMat, LinearInt, RequantMat, HasWeight;
    ActivationSim(b, e, c, cm, TABLE_SILU, t.silu);
    var b1 := ActivationB(b, c, TABLE_SILU);
    ProjectSim(b1, e, Out(b1), EvalMat(t.silu, cm).value, n.s, w.adaln, 6 * n.d, n.d, qb.adaln, bs.adaln);
  }

  lemma ChunkSim(b: BState, e: Env, src: nat, m: Mat, n: Dims, j: nat)
    requires Runs(b, e) && FitsU32(n) && Val(b, e, src) == Some(Flatten(m)) && IsMat(m, n.s, 6 * n.d) && j < 6
    ensures Yields(b, ChunkB(b, src, n, j), e, Flatten(Chunk(m, n, j)))
  {
    hide Val, Runs, Out, ExtractColsB, Cols;
    assert At(j, n.d, 0) == j * n.d;
    ExtractColsSim(b, e, src, m, n.s, 6 * n.d, j * n.d, n.d);
  }

  lemma ChunksSim(b: BState, e: Env, src: nat, m: Mat, n: Dims)
    requires Runs(b, e) && FitsU32(n) && Val(b, e, src) == Some(Flatten(m)) && IsMat(m, n.s, 6 * n.d)
    ensures var ch := ChunksB(b, src, n);
            && Runs(ch.b, e) && Keeps(b, ch.b, e)
            && Val(ch.b, e, ch.shMsa) == Some(Flatten(Chunk(m, n, 0)))
            && Val(ch.b, e, ch.scMsa) == Some(Flatten(Chunk(m, n, 1)))
            && Val(ch.b, e, ch.gMsa) == Some(Flatten(Chunk(m, n, 2)))
            && Val(ch.b, e, ch.shMlp) == Some(Flatten(Chunk(m, n, 3)))
            && Val(ch.b, e, ch.scMlp) == Some(Flatten(Chunk(m, n, 4)))
            && Val(ch.b, e, ch.gMlp) == Some(Flatten(Chunk(m, n, 5)))
  {
    hide Val, Runs, Out, ChunkB, Chunk, FitsU32;
    ChunkSim(b, e, src, m, n, 0);
    var b0 := ChunkB(b, src, n, 0);
    ChunkSim(b0, e, src, m, n, 1);
    var b1 := ChunkB(b0, src, n, 1);
    ChunkSim(b1, e, src, m, n, 2);
    var b2 := ChunkB(b1, src, n, 2);
    ChunkSim(b2, e, src, m, n, 3);
    var b3 := ChunkB(b2, src, n, 3);
    ChunkSim(b3, e, src, m, n, 4);
    var b4 := ChunkB(b3, src, n, 4);
    ChunkSim(b4, e, src, m, n, 5);
  }

  /** Half a block: normalize and modulate, the sub-block, the gated residual. */
  lemma AttnHalfSim(b: BState, e: Env, x: nat, sc: nat, sh: nat, g: nat, xm: Mat, scm: Mat, shm: Mat, gm: Mat, n: Dims,
                    w: BlockWeights, qb: QuantBlock, dp: DerivedParams, bs: BlockShifts, t: Tables)
    requires Runs(b, e) && StepOk(n, dp, t) && HasTables(e, t) && qb.Shaped(n) && HasBlock(e, w, n, qb)
    requires IsMat(xm, n.s, n.d) && IsMat(scm, n.s, n.d) && IsMat(shm, n.s, n.d) && IsMat(gm, n.s, n.d)
    requires Val(b, e, x) == Some(Flatten(xm)) && Val(b, e, sc) == Some(Flatten(scm))
    requires Val(b, e, sh) == Some(Flatten(shm)) && Val(b, e, g) == Some(Flatten(gm))
    requires LnRows(xm, t.invSqrt, dp.lnShift).Some?
    requires AttnMat(ModulateMat(LnRows(xm, t.invSqrt, dp.lnShift).value, scm, shm, dp.modOne, dp.modBits, n.d), qb,
                     n, dp, bs, t).Some?
    ensures var b1 := NormModB(b, x, sc, sh, n, dp);
            var b2 := AttnB(b1, Out(b1), n, w, dp, bs);
            var m := ModulateMat(LnRows(xm, t.invSqrt, dp.lnShift).value, scm, shm, dp.modOne, dp.modBits, n.d);
            Yields(b, ResidualB(b2, x, g, Out(b2), dp.gateMsaBits), e,
                   Flatten(GatedResidual(xm, gm, AttnMat(m, qb, n, dp, bs, t).value, dp.gateMsaBits, n.d)))
  {
    hide Val, Runs, Out, NormModB, AttnB, ResidualB, LnRows, ModulateMat, AttnMat, GatedResidual, HasBlock, HasTables,
         StepOk, FitsU32;
    assert n.s >= 1 && n.d >= 1 by { StepDims(n, dp, t); }
    NormModSim(b, e, x, sc, sh, xm, scm, shm, n, dp, t);
    var b1 := NormModB(b, x, sc, sh, n, dp);
    var m := ModulateMat(LnRows(xm, t.invSqrt, dp.lnShift).value, scm, shm, dp.modOne, dp.modBits, n.d);
    AttnSim(b1, e, Out(b1), m, n, w, qb, dp, bs, t);
    var b2 := AttnB(b1, Out(b1), n, w, dp, bs);
    ResidualSim(b2, e, x, g, Out(b2), xm, gm, AttnMat(m, qb, n, dp, bs, t).value, dp.gateMsaBits, n.s, n.d);
  }

  lemma StepDims(n: Dims, dp: DerivedParams, t: Tables)
    requires StepOk(n, dp, t)
    ensures n.s >= 1 && n.d >= 1 && FitsU32(n)
  {
  }

  lemma FfnHalfSim(b: BState, e: Env, x: nat, sc: nat, sh: nat, g: nat, xm: Mat, scm: Mat, shm: Mat, gm: Mat, n: Dims,
                   w: BlockWeights, qb: QuantBlock, dp: DerivedParams, bs: BlockShifts, t: Tables)
    requires Runs(b, e) && StepOk(n, dp, t) && HasTables(e, t) && qb.Shaped(n) && HasBlock(e, w, n, qb)
    requires IsMat(xm, n.s, n.d) && IsMat(scm, n.s, n.d) && IsMat(shm, n.s, n.d) && IsMat(gm, n.s, n.d)
    requires Val(b, e, x) == Some(Flatten(xm)) && Val(b, e, sc) == Some(Flatten(scm))
    requires Val(b, e, sh) == Some(Flatten(shm)) && Val(b, e, g) == Some(Flatten(gm))
    requires LnRows(xm, t.invSqrt, dp.lnShift).Some?
    requires FfnMat(ModulateMat(LnRows(xm, t.invSqrt, dp.lnShift).value, scm, shm, dp.modOne, dp.modBits, n.d), qb, n,
                    dp, bs, t).Some?
    ensures var b1 := NormModB(b, x, sc, sh, n, dp);
            var b2 := FfnB(b1, Out(b1), n, w, dp, bs);
            var m := ModulateMat(LnRows(xm, t.invSqrt, dp.lnShift).value, scm, shm, dp.modOne, dp.modBits, n.d);
            Yields(b, ResidualB(b2, x, g, Out(b2), dp.gateMlpBits), e,
                   Flatten(GatedResidual(xm, gm, FfnMat(m, qb, n, dp, bs, t).value, dp.gateMlpBits, n.d)))
  {
    hide Val, Runs, Out, NormModB, FfnB, ResidualB, LnRows, ModulateMat, FfnMat, GatedResidual, HasBlock, HasTables,
         StepOk, FitsU32;
    assert n.s >= 1 && n.d >= 1 by { StepDims(n, dp, t); }
    NormModSim(b, e, x, sc, sh, xm, scm, shm, n, dp, t);
    var b1 := NormModB(b, x, sc, sh, n, dp);
    var m := ModulateMat(LnRows(xm, t.invSqrt, dp.lnShift).value, scm, shm, dp.modOne, dp.modBits, n.d);
    FfnSim(b1, e, Out(b1), m, n, w, qb, dp, bs, t);
    var b2 := FfnB(b1, Out(b1), n, w, dp, bs);
    ResidualSim(b2, e, x, g, Out(b2), xm, gm, FfnMat(m, qb, n, dp, bs, t).value, dp.gateMlpBits, n.s, n.d);
  }

  /** One ConditionalBlock means one IntegerBlock. */
  lemma BlockSim(b: BState, e: Env, x: nat, c: nat, xm: Mat, cm: Mat, n: Dims, w: BlockWeights, qb: QuantBlock,
                 dp: DerivedParams, bs: BlockShifts, t: Tables)
    requires Runs(b, e) && StepOk(n, dp, t) && HasTables(e, t) && qb.Shaped(n) && HasBlock(e, w, n, qb)
    requires IsMat(xm, n.s, n.d) && IsMat(cm, n.s, n.d) && EvalMat(t.silu, cm).Some?
             && IsMat(EvalMat(t.silu, cm).value, n.s, n.d)
    requires Val(b, e, x) == Some(Flatten(xm)) && Val(b, e, c) == Some(Flatten(cm))
    requires IntegerBlock(xm, EvalMat(t.silu, cm).value, qb, n, dp, bs, t).Some?
    ensures Yields(b, ConditionalBlockB(b, x, c, n, w, dp, bs), e,
                   Flatten(IntegerBlock(xm, EvalMat(t.silu, cm).value, qb, n, dp, bs, t).value))
  {
    hide Val, Runs, Out, AdalnB, ChunksB, NormModB, AttnB, FfnB, ResidualB, EvalMat, LinearInt, RequantMat, Chunk,
         LnRows, ModulateMat, AttnMat, FfnMat, GatedResidual, HasBlock, HasTables, StepOk, FitsU32;
    StepDims(n, dp, t);
    var siluC := EvalMat(t.silu, cm).value;
    AdalnSim(b, e, c, cm, n, w, qb, dp, bs, t);
    var b1 := AdalnB(b, c, n, w, bs);
    var ada := RequantMat(LinearInt(siluC, qb.adaln, 6 * n.d, n.d), bs.adaln);
    ChunksSim(b1, e, Out(b1), ada, n);
    var ch := ChunksB(b1, Out(b1), n);
    AttnHalfSim(ch.b, e, x, ch.scMsa, ch.shMsa, ch.gMsa, xm, Chunk(ada, n, 1), Chunk(ada, n, 0), Chunk(ada, n, 2), n,
                w, qb, dp, bs, t);
    var b2 := NormModB(ch.b, x, ch.scMsa, ch.shMsa, n, dp);
    var b3 := AttnB(b2, Out(b2), n, w, dp, bs);
    var b4 := ResidualB(b3, x, ch.gMsa, Out(b3), dp.gateMsaBits);
    var m1 := ModulateMat(LnRows(xm, t.invSqrt, dp.lnShift).value, Chunk(ada, n, 1), Chunk(ada, n, 0), dp.modOne,
                          dp.modBits, n.d);
    var x1 := GatedResidual(xm, Chunk(ada, n, 2), AttnMat(m1, qb, n, dp, bs, t).value, dp.gateMsaBits, n.d);
    FfnHalfSim(b4, e, Out(b4), ch.scMlp, ch.shMlp, ch.gMlp, x1, Chunk(ada, n, 4), Chunk(ada, n, 3), Chunk(ada, n, 5),
               n, w, qb, dp, bs, t);
  }
}
