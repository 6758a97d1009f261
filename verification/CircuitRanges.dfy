/**
 * Compiled circuits pass the range analysis: within stated dimensions and table bounds,
 * no kernel of a predictor step leaves i64, and its honest proof is always accepted.
 */
module CircuitRanges {
  import opened Wrappers
  import opened Arith
  import opened Matrix
  import opened FixedPoint
  import opened Kernels
  import opened Tensors
  import opened Freivalds
  import opened Blocks
  import opened Field
  import opened IntegerForward
  import opened Circuit
  import opened Overflow
  import opened Ranges
  import CP = CircuitProof
  import P = BlockProver

  // ---------------------------------------------------------------- what is demanded

  /** The magnitude of an int8 value, and of a modulated one. */
  const INT8: nat := 128
  const MODULATED: nat := 256

  predicate ShiftsOk(bs: BlockShifts) {
    ValidShift(bs.adaln) && ValidShift(bs.qkv) && ValidShift(bs.out) && ValidShift(bs.fc1) && ValidShift(bs.fc2)
  }

  predicate AllShiftsOk(dp: DerivedParams) {
    && ValidShift(dp.lnShift) && ValidShift(dp.modBits) && ValidShift(dp.scoreShift) && ValidShift(dp.ohShift)
    && ValidShift(dp.gateMsaBits) && ValidShift(dp.gateMlpBits)
    && forall j :: 0 <= j < |dp.blocks| ==> ShiftsOk(dp.blocks[j])
  }

  /** Every linear of the step is inside the guard for the inputs it gets. */
  predicate LinearsOk(n: Dims, t: Tables) {
    && LinearCap(n.d, INT8) && LinearCap(n.Inner(), INT8)
    && LinearCap(n.d, MaxMag(t.silu.outputs)) && LinearCap(n.mlp, MaxMag(t.gelu.outputs))
  }

  /** Dimensions, shifts, scales and table entries small enough that nothing can overflow. */
  predicate InCaps(n: Dims, dp: DerivedParams, t: Tables) {
    && LinearsOk(n, t)
    && INT8 + Mag(t.silu.lo) <= I64_MAX && INT8 + Mag(t.gelu.lo) <= I64_MAX
    && LayerNormCap(n.d, MODULATED, t.invSqrt) && SoftmaxCap(n.s, INT8, t.exp, dp.softmaxOne)
    && INT8 * (Mag(dp.modOne) + INT8) <= I64_MAX
    && n.s * (dp.softmaxOne * INT8) <= I64_MAX && dp.softmaxOne * INT8 <= I64_MAX
    && AllShiftsOk(dp)
  }

  /** Round numbers: widths below 2^16, int8 activations, table entries below 2^31, scales at most 2^16. */
  predicate Modest(n: Dims, dp: DerivedParams, t: Tables) {
    && n.d < 0x1_0000 && n.Inner() < 0x1_0000 && n.mlp < 0x1_0000 && n.s < TWO32
    && MaxMag(t.silu.outputs) <= INT8 && MaxMag(t.gelu.outputs) <= INT8
    && MaxMag(t.invSqrt.outputs) < 0x8000_0000 && MaxMag(t.exp.outputs) < 0x8000_0000 && Nonnegative(t.exp)
    && Mag(t.silu.lo) < TWO32 && Mag(t.gelu.lo) < TWO32 && Mag(t.invSqrt.lo) < TWO32 && Mag(t.exp.lo) < TWO32
    && 0 <= dp.softmaxOne <= 0x1_0000 && Mag(dp.modOne) <= 0x1_0000 && AllShiftsOk(dp)
  }

  lemma NarrowLinear(cols: nat, mag: nat)
    requires cols < 0x1_0000 && mag <= INT8
    ensures LinearCap(cols, mag)
  {
    MarginIsAWidthBound(cols);
    MulMono(128 * mag, 128 * INT8, cols);
  }

  lemma NarrowNorm(n: nat, t: ActivationTable)
    requires n < 0x1_0000 && MaxMag(t.outputs) < 0x8000_0000 && Mag(t.lo) < TWO32
    ensures LayerNormCap(n, MODULATED, t)
  {
  }

  lemma NarrowSoftmax(s: nat, t: ActivationTable, one: int)
    requires s < TWO32 && 0 <= one <= 0x1_0000 && Nonnegative(t) && MaxMag(t.outputs) < 0x8000_0000 && Mag(t.lo) < TWO32
    ensures SoftmaxCap(s, INT8, t, one) && 0 <= s * (one * INT8) <= I64_MAX
  {
    var e := MaxMag(t.outputs);
    MulMono(s, TWO32, e);
    MulMono(e, 0x8000_0000, one);
    MulMono(0, s, one * INT8);
    MulMono(s, TWO32, one * INT8);
    hide Nonnegative, MaxMag;
  }

  /** Modest steps are within the caps. */
  lemma ModestInCaps(n: Dims, dp: DerivedParams, t: Tables)
    requires Modest(n, dp, t)
    ensures InCaps(n, dp, t)
  {
    hide LinearCap, LayerNormCap, SoftmaxCap, ShiftsOk, Nonnegative, MaxMag;
    NarrowLinear(n.d, INT8);
    NarrowLinear(n.Inner(), INT8);
    NarrowLinear(n.d, MaxMag(t.silu.outputs));
    NarrowLinear(n.mlp, MaxMag(t.gelu.outputs));
    NarrowNorm(n.d, t.invSqrt);
    NarrowSoftmax(n.s, t.exp, dp.softmaxOne);
  }

  // -------------------------------------------------------------- the state's bounds

  /** What the emitted ops run against: weights and tables, and the bounds of the seeds. */
  datatype Scene = Scene(m: P.Bindings, seed: Bounds)

  ghost function Known(b: BState, e: Scene): Option<Bounds> { InferAll(b.ops, e.m, e.seed) }

  /** The analysis passes, and every bounded buffer was allocated. */
  ghost predicate Passes(b: BState, e: Scene) {
    Known(b, e).Some? && forall id :: id in Known(b, e).value ==> id < b.nextBuf
  }

  ghost predicate Mags(b: BState, e: Scene, id: nat, k: nat) {
    Known(b, e).Some? && id in Known(b, e).value && Known(b, e).value[id].mag <= k
  }

  ghost predicate Kept(b: BState, b': BState, e: Scene) {
    forall id, k :: Mags(b, e, id, k) ==> Mags(b', e, id, k)
  }

  /** `b'` passes, keeps the bounds of `b`, and returns a buffer of magnitude at most `k`. */
  ghost predicate Makes(b: BState, b': BState, e: Scene, k: nat) {
    Passes(b', e) && Kept(b, b', e) && Mags(b', e, Out(b'), k)
  }

  lemma EmitMakes(b: BState, e: Scene, op: BlockOp, r: Bound, k: nat)
    requires Passes(b, e) && op.outBuf == b.nextBuf && Infer(op, e.m, Known(b, e).value) == Some(r) && r.mag <= k
    ensures Makes(b, Emit(b, op), e, k)
    ensures Known(Emit(b, op), e) == Some(Known(b, e).value[b.nextBuf := r])
  {
    hide Infer;
    var ops := b.ops + [op];
    assert ops[..|b.ops|] == b.ops;
    assert Known(Emit(b, op), e) == Some(Known(b, e).value[b.nextBuf := r]);
  }

  lemma Int8Clamp()
    ensures MaxMag([CLO, CHI]) == INT8
  {
    assert [CLO, CHI][..1] == [CLO] && [CLO][..0] == [];
    assert MaxMag([CLO]) == 128;
  }

  // ----------------------------------------------------------------- one op at a time

  lemma RequantMakes(b: BState, e: Scene, x: nat, k: nat, shift: nat)
    requires Passes(b, e) && Mags(b, e, x, k) && k <= I64_MAX && ValidShift(shift)
    ensures Makes(b, RequantB(b, x, shift), e, INT8)
  {
    Int8Clamp();
    hide MaxMag, Makes, Known, Emit;
    EmitMakes(b, e, BlockOp.Requant(b.nextOp, x, b.nextBuf, [], shift, 0, CLO, CHI, RND), Bound(INT8, None), INT8);
  }

  lemma ActivationMakes(b: BState, e: Scene, x: nat, k: nat, id: nat, t: ActivationTable)
    requires Passes(b, e) && Mags(b, e, x, k) && FindTable(e.m.tables, id) == Some(t) && k + Mag(t.lo) <= I64_MAX
    ensures Makes(b, ActivationB(b, x, id), e, MaxMag(t.outputs))
  {
    hide MaxMag, Makes, Known, Emit;
    EmitMakes(b, e, BlockOp.Activation(b.nextOp, id, x, b.nextBuf, []), Bound(MaxMag(t.outputs), None),
              MaxMag(t.outputs));
  }

  lemma LinearCapMono(cols: nat, mag: nat, k: nat)
    requires mag <= k && LinearCap(cols, k)
    ensures LinearCap(cols, mag) && 0 <= cols * (128 * mag) <= OPERAND_BOUND
  {
    MulMono(0, cols, 128 * mag);
    MulMono(128 * mag, 128 * k, cols);
  }

  lemma BatchedLinearMakes(b: BState, e: Scene, x: nat, k: nat, s: nat, id: nat, rows: nat, cols: nat, w: seq<int>)
    requires Passes(b, e) && Mags(b, e, x, k) && LinearCap(cols, k)
    requires CP.HasWeight(CP.Env(e.m, map[]), id, rows, cols, w) && AllIn(w, CLO, CHI)
    ensures Makes(b, BatchedLinearB(b, x, id, s), e, OPERAND_BOUND)
  {
    var mag := Known(b, e).value[x].mag;
    LinearCapMono(cols, mag, k);
    hide Makes, Known, Emit, LinearCap, U32;
    EmitMakes(b, e, BlockOp.BatchedLinear(b.nextOp, id, None, x, b.nextBuf, [], U32(s)),
              Bound(cols * (128 * mag), None), OPERAND_BOUND);
  }

  /** A batched linear, requantized. */
  lemma ProjectMakes(b: BState, e: Scene, x: nat, k: nat, s: nat, id: nat, rows: nat, cols: nat, w: seq<int>,
                     shift: nat)
    requires Passes(b, e) && Mags(b, e, x, k) && LinearCap(cols, k) && ValidShift(shift)
    requires CP.HasWeight(CP.Env(e.m, map[]), id, rows, cols, w) && AllIn(w, CLO, CHI)
    ensures var b1 := BatchedLinearB(b, x, id, s); Makes(b, RequantB(b1, Out(b1), shift), e, INT8)
  {
    hide Passes, Mags, Out, RequantB, BatchedLinearB, LinearCap, CP.HasWeight;
    BatchedLinearMakes(b, e, x, k, s, id, rows, cols, w);
    var b1 := BatchedLinearB(b, x, id, s);
    RequantMakes(b1, e, Out(b1), OPERAND_BOUND, shift);
  }

  lemma ModulateMakes(b: BState, e: Scene, x: nat, sc: nat, sh: nat, one: int, bits: nat)
    requires Passes(b, e) && Mags(b, e, x, INT8) && Mags(b, e, sc, INT8) && Mags(b, e, sh, INT8)
    requires INT8 * (Mag(one) + INT8) <= I64_MAX && ValidShift(bits)
    ensures Makes(b, ModulateB(b, x, sc, sh, one, bits), e, MODULATED)
  {
    Int8Clamp();
    var rx, rsc, rsh := Known(b, e).value[x].mag, Known(b, e).value[sc].mag, Known(b, e).value[sh].mag;
    MulMono(rx, INT8, Mag(one) + rsc);
    MulMono(Mag(one) + rsc, Mag(one) + INT8, INT8);
    hide MaxMag, Makes, Known, Emit;
    EmitMakes(b, e, BlockOp.Modulate(b.nextOp, x, sc, sh, b.nextBuf, [], one, bits, CLO, CHI, RND),
              Bound(INT8 + rsh, None), MODULATED);
  }

  lemma GateMakes(b: BState, e: Scene, g: nat, x: nat, bits: nat)
    requires Passes(b, e) && Mags(b, e, g, INT8) && Mags(b, e, x, INT8) && ValidShift(bits)
    ensures Makes(b, GateB(b, g, x, bits), e, INT8)
  {
    Int8Clamp();
    var rg, rx := Known(b, e).value[g].mag, Known(b, e).value[x].mag;
    MulMono(rg, INT8, rx);
    hide MaxMag, Makes, Known, Emit;
    EmitMakes(b, e, BlockOp.Gate(b.nextOp, g, x, b.nextBuf, [], bits, CLO, CHI, RND), Bound(INT8, None), INT8);
  }

  lemma AddMakes(b: BState, e: Scene, x: nat, y: nat)
    requires Passes(b, e) && Mags(b, e, x, INT8) && Mags(b, e, y, INT8)
    ensures Makes(b, AddB(b, x, y), e, MODULATED)
  {
    var rx, ry := Known(b, e).value[x].mag, Known(b, e).value[y].mag;
    hide Makes, Known, Emit;
    EmitMakes(b, e, BlockOp.Add(b.nextOp, x, y, b.nextBuf, []), Bound(rx + ry, None), MODULATED);
  }

  lemma ProductMono(a: nat, b: nat, A: nat, B: nat, inner: nat, cap: nat)
    requires a <= A && b <= B && A * B <= cap && inner * (A * B) <= cap
    ensures 0 <= a * b <= cap && 0 <= inner * (a * b) <= inner * (A * B) <= cap
  {
    MulMono(0, a, b);
    MulMono(a, A, b);
    MulMono(b, B, A);
    MulMono(0, inner, a * b);
    MulMono(a * b, A * B, inner);
  }

  lemma MatMulMakes(b: BState, e: Scene, x: nat, y: nat, X: nat, Y: nat, rows: nat, inner: nat, cols: nat,
                    transposed: bool)
    requires Passes(b, e) && Mags(b, e, x, X) && Mags(b, e, y, Y) && inner < TWO32
    requires X * Y <= I64_MAX && inner * (X * Y) <= I64_MAX
    ensures Makes(b, MatMulB(b, x, y, rows, inner, cols, transposed), e, I64_MAX)
  {
    var rx, ry := Known(b, e).value[x].mag, Known(b, e).value[y].mag;
    ProductMono(rx, ry, X, Y, inner, I64_MAX);
    CP.ExactCast(inner);
    hide Makes, Known, Emit, U32;
    EmitMakes(b, e, BlockOp.MatMul(b.nextOp, x, y, b.nextBuf, [], U32(rows), U32(inner), U32(cols), transposed),
              Bound(inner * (rx * ry), None), I64_MAX);
  }

  lemma SoftmaxMakes(b: BState, e: Scene, x: nat, width: nat, t: ActivationTable, one: int)
    requires Passes(b, e) && Mags(b, e, x, INT8) && FindTable(e.m.tables, TABLE_EXP) == Some(t)
    requires width < TWO32 && SoftmaxCap(width, INT8, t, one)
    ensures one >= 0 && Makes(b, SoftmaxB(b, x, TABLE_EXP, width, one), e, one)
  {
    CP.ExactCast(width);
    hide Makes, Known, Emit, U32, MaxMag, Nonnegative;
    EmitMakes(b, e, BlockOp.Softmax(b.nextOp, TABLE_EXP, x, b.nextBuf, [], U32(width), one), Bound(one, None), one);
  }

  lemma SliceMakes(b: BState, e: Scene, x: nat, k: nat, start: nat, len: nat)
    requires Passes(b, e) && Mags(b, e, x, k) && len < TWO32
    ensures Makes(b, SliceB(b, x, start, len), e, k)
    ensures var b' := SliceB(b, x, start, len);
            Known(b', e).value[Out(b')] == Bound(Known(b', e).value[Out(b')].mag, Some(len))
  {
    CP.ExactCast(len);
    var r := Bound(Known(b, e).value[x].mag, Some(len));
    hide U32;
    var op := BlockOp.Slice(b.nextOp, x, b.nextBuf, U32(start), U32(len), []);
    assert Infer(op, e.m, Known(b, e).value) == Some(r);
    hide Known, Infer;
    EmitMakes(b, e, op, r, k);
  }

  lemma LayerNormCapMono(n: nat, mag: nat, k: nat, t: ActivationTable)
    requires mag <= k && LayerNormCap(n, k, t)
    ensures LayerNormCap(n, mag, t)
  {
    MulMono(mag, k, n);
    MulMono(2 * mag, 2 * k, 2 * mag);
    MulMono(2 * mag, 2 * k, 2 * k);
    MulMono((2 * mag) * (2 * mag), (2 * k) * (2 * k), n);
    MulMono(2 * mag, 2 * k, MaxMag(t.outputs));
  }

  lemma LayerNormMakes(b: BState, e: Scene, x: nat, k: nat, n: nat, t: ActivationTable, shift: nat)
    requires Passes(b, e) && Mags(b, e, x, k) && Known(b, e).value[x].len == Some(n)
    requires FindTable(e.m.tables, TABLE_INVSQRT) == Some(t) && LayerNormCap(n, k, t) && ValidShift(shift)
    ensures Makes(b, LayerNormB(b, x, TABLE_INVSQRT, shift), e, INT8)
  {
    Int8Clamp();
    LayerNormCapMono(n, Known(b, e).value[x].mag, k, t);
    hide MaxMag, Makes, Known, Emit, LayerNormCap;
    EmitMakes(b, e, BlockOp.LayerNorm(b.nextOp, TABLE_INVSQRT, x, b.nextBuf, [], shift, CLO, CHI, RND),
              Bound(INT8, None), INT8);
  }

  // ------------------------------------------------------------------- listed buffers

  /** The listed buffers are all of magnitude at most `k`. */
  ghost predicate Lists(b: BState, l: Listed, e: Scene, k: nat) {
    Passes(l.b, e) && Kept(b, l.b, e) && forall i :: 0 <= i < |l.ids| ==> Mags(l.b, e, l.ids[i], k)
  }

  lemma PushLists(b: BState, l: Listed, e: Scene, k: nat, b': BState)
    requires Lists(b, l, e, k) && Makes(l.b, b', e, k)
    ensures Lists(b, Listed(b', l.ids + [Out(b')]), e, k)
  {
    hide Mags, Passes, Out;
  }

  lemma {:induction false} ConcatKnown(rs: Bounds, ids: seq<nat>, k: nat)
    requires forall i :: 0 <= i < |ids| ==> ids[i] in rs && rs[ids[i]].mag <= k
    ensures ConcatBound(rs, ids).Some? && ConcatBound(rs, ids).value <= k
  {
    if |ids| > 0 { ConcatKnown(rs, ids[..|ids| - 1], k); }
  }

  lemma ConcatMakes(b: BState, l: Listed, e: Scene, k: nat)
    requires Lists(b, l, e, k)
    ensures Makes(b, ConcatB(l.b, l.ids), e, k)
  {
    assert forall i :: 0 <= i < |l.ids| ==> Mags(l.b, e, l.ids[i], k);
    ConcatKnown(Known(l.b, e).value, l.ids, k);
    var mag := ConcatBound(Known(l.b, e).value, l.ids).value;
    hide Known, Emit, ConcatBound, Mags, Out;
    EmitMakes(l.b, e, BlockOp.Concat(l.b.nextOp, l.ids, l.b.nextBuf, []), Bound(mag, None), k);
  }

  lemma LnRowLists(b: BState, l: Listed, e: Scene, x: nat, k: nat, p: nat, d: nat, shift: nat, t: ActivationTable)
    requires Lists(b, l, e, INT8) && Mags(b, e, x, k) && d < TWO32
    requires FindTable(e.m.tables, TABLE_INVSQRT) == Some(t) && LayerNormCap(d, k, t) && ValidShift(shift)
    ensures Lists(b, LnRowB(l, x, p, d, shift), e, INT8)
  {
    hide Known, Mags, Passes, Out, At, LayerNormCap, SliceB, LayerNormB;
    SliceMakes(l.b, e, x, k, At(p, d, 0), d);
    var b1 := SliceB(l.b, x, At(p, d, 0), d);
    LayerNormMakes(b1, e, Out(b1), k, d, t, shift);
    PushLists(b, l, e, INT8, LayerNormB(b1, Out(b1), TABLE_INVSQRT, shift));
  }

  lemma LnPerPosMakes(b: BState, e: Scene, x: nat, k: nat, s: nat, d: nat, shift: nat, t: ActivationTable)
    requires Passes(b, e) && Mags(b, e, x, k) && d < TWO32
    requires FindTable(e.m.tables, TABLE_INVSQRT) == Some(t) && LayerNormCap(d, k, t) && ValidShift(shift)
    ensures Makes(b, LnPerPosB(b, x, s, d, shift), e, INT8)
  {
    hide Known, Mags, Passes, LnRowB, LayerNormCap;
    for p := 0 to s
      invariant Lists(b, LnLoop(b, x, d, shift, p), e, INT8)
    {
      LnRowLists(b, LnLoop(b, x, d, shift, p), e, x, k, p, d, shift, t);
    }
    ConcatMakes(b, LnLoop(b, x, d, shift, s), e, INT8);
  }

  lemma SliceRowLists(b: BState, l: Listed, e: Scene, src: nat, k: nat, start: nat, len: nat)
    requires Lists(b, l, e, k) && Mags(b, e, src, k) && len < TWO32
    ensures Lists(b, SliceRow(l, src, start, len), e, k)
  {
    hide Known, Mags, Passes, Out, SliceB;
    SliceMakes(l.b, e, src, k, start, len);
    PushLists(b, l, e, k, SliceB(l.b, src, start, len));
  }

  lemma ExtractColsMakes(b: BState, e: Scene, src: nat, k: nat, s: nat, width: nat, col: nat, len: nat)
    requires Passes(b, e) && Mags(b, e, src, k) && len < TWO32
    ensures Makes(b, ExtractColsB(b, src, s, width, col, len), e, k)
  {
    hide Known, Mags, Passes, SliceRow, At;
    for p := 0 to s
      invariant Lists(b, BandLoop(b, src, width, col, len, p), e, k)
    {
      SliceRowLists(b, BandLoop(b, src, width, col, len, p), e, src, k, At(p, width, col), len);
    }
    ConcatMakes(b, BandLoop(b, src, width, col, len, s), e, k);
  }

  // ------------------------------------------------------------------------ attention

  /** The tables, the casts and the caps of one step. */
  ghost predicate StepCaps(e: Scene, n: Dims, dp: DerivedParams, t: Tables) {
    CP.HasTables(CP.Env(e.m, map[]), t) && FitsU32(n) && InCaps(n, dp, t)
  }

  lemma HeadInMakes(b: BState, e: Scene, q: nat, k: nat, v: nat, n: Dims, i: nat)
    requires Passes(b, e) && Mags(b, e, q, INT8) && Mags(b, e, k, INT8) && Mags(b, e, v, INT8) && n.dh < TWO32
    ensures var (b', qh, kh, vh) := HeadInB(b, q, k, v, n, i);
            Passes(b', e) && Kept(b, b', e) && Mags(b', e, qh, INT8) && Mags(b', e, kh, INT8) && Mags(b', e, vh, INT8)
  {
    hide Known, Mags, Passes, Out, ExtractColsB, At;
    var col := At(i, n.dh, 0);
    ExtractColsMakes(b, e, q, INT8, n.s, n.Inner(), col, n.dh);
    var b1 := ExtractColsB(b, q, n.s, n.Inner(), col, n.dh);
    ExtractColsMakes(b1, e, k, INT8, n.s, n.Inner(), col, n.dh);
    var b2 := ExtractColsB(b1, k, n.s, n.Inner(), col, n.dh);
    ExtractColsMakes(b2, e, v, INT8, n.s, n.Inner(), col, n.dh);
  }

  /** A head is no wider than all heads together. */
  lemma HeadWidth(n: Dims)
    requires n.h >= 1 && LinearCap(n.Inner(), INT8)
    ensures 0 <= n.dh * (INT8 * INT8) <= OPERAND_BOUND
  {
    MulMono(1, n.h, n.dh);
    MulMono(n.dh, n.Inner(), INT8 * INT8);
  }

  lemma HeadMixMakes(b: BState, e: Scene, qh: nat, kh: nat, vh: nat, n: Dims, dp: DerivedParams, t: Tables)
    requires Passes(b, e) && StepCaps(e, n, dp, t) && n.h >= 1
    requires Mags(b, e, qh, INT8) && Mags(b, e, kh, INT8) && Mags(b, e, vh, INT8)
    ensures Makes(b, HeadMixB(b, qh, kh, vh, n, dp), e, INT8)
  {
    CP.Fits(n);
    HeadWidth(n);
    hide Known, Mags, Passes, Out, MatMulB, RequantB, SoftmaxB, LinearsOk, LayerNormCap, SoftmaxCap;
    MatMulMakes(b, e, qh, kh, INT8, INT8, n.s, n.dh, n.s, true);
    var b1 := MatMulB(b, qh, kh, n.s, n.dh, n.s, true);
    RequantMakes(b1, e, Out(b1), I64_MAX, dp.scoreShift);
    var b2 := RequantB(b1, Out(b1), dp.scoreShift);
    SoftmaxMakes(b2, e, Out(b2), n.s, t.exp, dp.softmaxOne);
    var b3 := SoftmaxB(b2, Out(b2), TABLE_EXP, n.s, dp.softmaxOne);
    MatMulMakes(b3, e, Out(b3), vh, dp.softmaxOne, INT8, n.s, n.s, n.dh, false);
    var b4 := MatMulB(b3, Out(b3), vh, n.s, n.s, n.dh, false);
    RequantMakes(b4, e, Out(b4), I64_MAX, dp.ohShift);
  }

  lemma HeadMakes(b: BState, e: Scene, q: nat, k: nat, v: nat, n: Dims, i: nat, dp: DerivedParams, t: Tables)
    requires Passes(b, e) && StepCaps(e, n, dp, t) && n.h >= 1
    requires Mags(b, e, q, INT8) && Mags(b, e, k, INT8) && Mags(b, e, v, INT8)
    ensures Makes(b, HeadB(b, q, k, v, n, i, dp), e, INT8)
  {
    CP.Fits(n);
    hide Known, Mags, Passes, Out, HeadInB, HeadMixB, InCaps;
    HeadInMakes(b, e, q, k, v, n, i);
    var (b1, qh, kh, vh) := HeadInB(b, q, k, v, n, i);
    HeadMixMakes(b1, e, qh, kh, vh, n, dp, t);
  }

  lemma HeadLists(b: BState, e: Scene, q: nat, k: nat, v: nat, n: Dims, dp: DerivedParams, t: Tables)
    requires Passes(b, e) && StepCaps(e, n, dp, t)
    requires Mags(b, e, q, INT8) && Mags(b, e, k, INT8) && Mags(b, e, v, INT8)
    ensures Lists(b, HeadLoop(b, q, k, v, n, dp, n.h), e, INT8)
  {
    hide Known, Mags, Passes, Out, HeadB, StepCaps;
    for i := 0 to n.h
      invariant Lists(b, HeadLoop(b, q, k, v, n, dp, i), e, INT8)
    {
      var l := HeadLoop(b, q, k, v, n, dp, i);
      HeadMakes(l.b, e, q, k, v, n, i, dp, t);
      PushLists(b, l, e, INT8, HeadB(l.b, q, k, v, n, i, dp));
    }
  }

  /** The slices of one position, over all heads. */
  lemma PartRowLists(b: BState, l: Listed, e: Scene, heads: seq<nat>, start: nat, len: nat, i: nat)
    requires Lists(b, l, e, INT8) && i <= |heads| && len < TWO32
    requires forall j :: 0 <= j < |heads| ==> Mags(b, e, heads[j], INT8)
    ensures Lists(b, PartRow(l, heads, start, len, i), e, INT8)
  {
    hide Known, Mags, Passes, Out, SliceRow;
    for j := 0 to i
      invariant Lists(b, PartRow(l, heads, start, len, j), e, INT8)
    {
      SliceRowLists(b, PartRow(l, heads, start, len, j), e, heads[j], INT8, start, len);
    }
  }

  lemma PartLists(b: BState, e: Scene, heads: seq<nat>, dh: nat, s: nat)
    requires Passes(b, e) && dh < TWO32 && forall j :: 0 <= j < |heads| ==> Mags(b, e, heads[j], INT8)
    ensures Lists(b, PartLoop(b, heads, dh, s), e, INT8)
  {
    hide Known, Mags, Passes, Out, PartRow, At;
    for p := 0 to s
      invariant Lists(b, PartLoop(b, heads, dh, p), e, INT8)
    {
      PartRowLists(b, PartLoop(b, heads, dh, p), e, heads, At(p, dh, 0), dh, |heads|);
    }
  }

  /** Without heads there is nothing to slice. */
  lemma {:induction false} NoParts(b: BState, dh: nat, s: nat)
    ensures PartLoop(b, [], dh, s) == Listed(b, [])
  {
    if s > 0 { NoParts(b, dh, s - 1); }
  }

  lemma HeadCount(b: BState, q: nat, k: nat, v: nat, n: Dims, dp: DerivedParams, i: nat)
    ensures |HeadLoop(b, q, k, v, n, dp, i).ids| == i
  {
    hide HeadB;
  }

  lemma HeadsMakes(b: BState, e: Scene, q: nat, k: nat, v: nat, n: Dims, dp: DerivedParams, t: Tables)
    requires Passes(b, e) && StepCaps(e, n, dp, t)
    requires Mags(b, e, q, INT8) && Mags(b, e, k, INT8) && Mags(b, e, v, INT8)
    ensures Makes(b, HeadsB(b, q, k, v, n, dp), e, INT8)
  {
    CP.Fits(n);
    HeadLists(b, e, q, k, v, n, dp, t);
    HeadCount(b, q, k, v, n, dp, n.h);
    hide Known, Mags, Passes, Out, HeadLoop, PartLoop, ConcatB, StepCaps;
    var heads := HeadLoop(b, q, k, v, n, dp, n.h);
    if n.h >= 1 {
      PartLists(heads.b, e, heads.ids, n.dh, n.s);
    } else {
      assert heads.ids == [];
      NoParts(heads.b, n.dh, n.s);
    }
    ConcatMakes(heads.b, PartLoop(heads.b, heads.ids, n.dh, n.s), e, INT8);
  }

  lemma QkvMakes(b: BState, e: Scene, x: nat, n: Dims, w: nat, qkv: seq<int>, dp: DerivedParams, bs: BlockShifts,
                 t: Tables)
    requires Passes(b, e) && StepCaps(e, n, dp, t) && ShiftsOk(bs) && Mags(b, e, x, MODULATED)
    requires CP.HasWeight(CP.Env(e.m, map[]), w, 3 * n.Inner(), n.d, qkv) && AllIn(qkv, CLO, CHI)
    ensures var (b', q, k, v) := QkvB(b, x, n, w, dp, bs);
            Passes(b', e) && Kept(b, b', e) && Mags(b', e, q, INT8) && Mags(b', e, k, INT8) && Mags(b', e, v, INT8)
  {
    hide Known, Mags, Passes, Out, LnPerPosB, BatchedLinearB, RequantB, ExtractColsB, LinearCap, LayerNormCap,
         SoftmaxCap, CP.HasWeight;
    var inner := n.Inner();
    LnPerPosMakes(b, e, x, MODULATED, n.s, n.d, dp.lnShift, t.invSqrt);
    var b1 := LnPerPosB(b, x, n.s, n.d, dp.lnShift);
    ProjectMakes(b1, e, Out(b1), INT8, n.s, w, 3 * inner, n.d, qkv, bs.qkv);
    var b2 := BatchedLinearB(b1, Out(b1), w, n.s);
    var b3 := RequantB(b2, Out(b2), bs.qkv);
    ExtractColsMakes(b3, e, Out(b3), INT8, n.s, 3 * inner, 0, inner);
    var b4 := ExtractColsB(b3, Out(b3), n.s, 3 * inner, 0, inner);
    ExtractColsMakes(b4, e, Out(b3), INT8, n.s, 3 * inner, inner, inner);
    var b5 := ExtractColsB(b4, Out(b3), n.s, 3 * inner, inner, inner);
    ExtractColsMakes(b5, e, Out(b3), INT8, n.s, 3 * inner, 2 * inner, inner);
  }

  // ------------------------------------------------------------------------- a block

  /** The block's weights: found, and int8. */
  ghost predicate BlockReady(e: Scene, w: BlockWeights, n: Dims, qb: QuantBlock) {
    && CP.HasBlock(CP.Env(e.m, map[]), w, n, qb)
    && AllIn(qb.adaln, CLO, CHI) && AllIn(qb.qkv, CLO, CHI) && AllIn(qb.out, CLO, CHI)
    && AllIn(qb.fc1, CLO, CHI) && AllIn(qb.fc2, CLO, CHI)
  }

  lemma AttnMakes(b: BState, e: Scene, x: nat, n: Dims, w: BlockWeights, qb: QuantBlock, dp: DerivedParams,
                  bs: BlockShifts, t: Tables)
    requires Passes(b, e) && StepCaps(e, n, dp, t) && BlockReady(e, w, n, qb) && ShiftsOk(bs)
             && Mags(b, e, x, MODULATED)
    ensures Makes(b, AttnB(b, x, n, w, dp, bs), e, INT8)
  {
    hide Known, Mags, Passes, Out, QkvB, HeadsB, BatchedLinearB, RequantB, LinearCap, LayerNormCap, SoftmaxCap,
         CP.HasWeight;
    QkvMakes(b, e, x, n, w.qkv, qb.qkv, dp, bs, t);
    var (b1, q, k, v) := QkvB(b, x, n, w.qkv, dp, bs);
    HeadsMakes(b1, e, q, k, v, n, dp, t);
    var b2 := HeadsB(b1, q, k, v, n, dp);
    ProjectMakes(b2, e, Out(b2), INT8, n.s, w.out, n.d, n.Inner(), qb.out, bs.out);
  }

  lemma FfnMakes(b: BState, e: Scene, x: nat, n: Dims, w: BlockWeights, qb: QuantBlock, dp: DerivedParams,
                 bs: BlockShifts, t: Tables)
    requires Passes(b, e) && StepCaps(e, n, dp, t) && BlockReady(e, w, n, qb) && ShiftsOk(bs)
             && Mags(b, e, x, MODULATED)
    ensures Makes(b, FfnB(b, x, n, w, dp, bs), e, INT8)
  {
    hide Known, Mags, Passes, Out, LnPerPosB, BatchedLinearB, RequantB, ActivationB, LinearCap, LayerNormCap,
         SoftmaxCap, CP.HasWeight;
    LnPerPosMakes(b, e, x, MODULATED, n.s, n.d, dp.lnShift, t.invSqrt);
    var b1 := LnPerPosB(b, x, n.s, n.d, dp.lnShift);
    ProjectMakes(b1, e, Out(b1), INT8, n.s, w.fc1, n.mlp, n.d, qb.fc1, bs.fc1);
    var b2 := BatchedLinearB(b1, Out(b1), w.fc1, n.s);
    var b3 := RequantB(b2, Out(b2), bs.fc1);
    ActivationMakes(b3, e, Out(b3), INT8, TABLE_GELU, t.gelu);
    var b4 := ActivationB(b3, Out(b3), TABLE_GELU);
    ProjectMakes(b4, e, Out(b4), MaxMag(t.gelu.outputs), n.s, w.fc2, n.d, n.mlp, qb.fc2, bs.fc2);
  }

  lemma NormModMakes(b: BState, e: Scene, x: nat, sc: nat, sh: nat, n: Dims, dp: DerivedParams, t: Tables)
    requires Passes(b, e) && StepCaps(e, n, dp, t)
    requires Mags(b, e, x, INT8) && Mags(b, e, sc, INT8) && Mags(b, e, sh, INT8)
    ensures Makes(b, NormModB(b, x, sc, sh, n, dp), e, MODULATED)
  {
    LayerNormCapMono(n.d, INT8, MODULATED, t.invSqrt);
    hide Known, Mags, Passes, Out, LnPerPosB, ModulateB, LinearsOk, LayerNormCap, SoftmaxCap;
    LnPerPosMakes(b, e, x, INT8, n.s, n.d, dp.lnShift, t.invSqrt);
    var b1 := LnPerPosB(b, x, n.s, n.d, dp.lnShift);
    ModulateMakes(b1, e, Out(b1), sc, sh, dp.modOne, dp.modBits);
  }

  lemma ResidualMakes(b: BState, e: Scene, x: nat, g: nat, y: nat, bits: nat)
    requires Passes(b, e) && Mags(b, e, x, INT8) && Mags(b, e, g, INT8) && Mags(b, e, y, INT8) && ValidShift(bits)
    ensures Makes(b, ResidualB(b, x, g, y, bits), e, INT8)
  {
    hide Known, Mags, Passes, Out, GateB, AddB, RequantB;
    GateMakes(b, e, g, y, bits);
    var b1 := GateB(b, g, y, bits);
    AddMakes(b1, e, x, Out(b1));
    var b2 := AddB(b1, x, Out(b1));
    RequantMakes(b2, e, Out(b2), MODULATED, 0);
  }

  lemma AdalnMakes(b: BState, e: Scene, c: nat, n: Dims, w: BlockWeights, qb: QuantBlock, dp: DerivedParams,
                   bs: BlockShifts, t: Tables)
    requires Passes(b, e) && StepCaps(e, n, dp, t) && BlockReady(e, w, n, qb) && ShiftsOk(bs) && Mags(b, e, c, INT8)
    ensures Makes(b, AdalnB(b, c, n, w, bs), e, INT8)
  {
    hide Known, Mags, Passes, Out, BatchedLinearB, RequantB, ActivationB, LinearCap, LayerNormCap, SoftmaxCap,
         CP.HasWeight;
    ActivationMakes(b, e, c, INT8, TABLE_SILU, t.silu);
    var b1 := ActivationB(b, c, TABLE_SILU);
    ProjectMakes(b1, e, Out(b1), MaxMag(t.silu.outputs), n.s, w.adaln, 6 * n.d, n.d, qb.adaln, bs.adaln);
  }

  lemma ChunksMakes(b: BState, e: Scene, src: nat, n: Dims)
    requires Passes(b, e) && Mags(b, e, src, INT8) && n.d < TWO32
    ensures var ch := ChunksB(b, src, n);
            && Passes(ch.b, e) && Kept(b, ch.b, e)
            && Mags(ch.b, e, ch.shMsa, INT8) && Mags(ch.b, e, ch.scMsa, INT8) && Mags(ch.b, e, ch.gMsa, INT8)
            && Mags(ch.b, e, ch.shMlp, INT8) && Mags(ch.b, e, ch.scMlp, INT8) && Mags(ch.b, e, ch.gMlp, INT8)
  {
    hide Known, Mags, Passes, Out, ChunkB;
    ChunkMakes(b, e, src, n, 0);
    var b0 := ChunkB(b, src, n, 0);
    ChunkMakes(b0, e, src, n, 1);
    var b1 := ChunkB(b0, src, n, 1);
    ChunkMakes(b1, e, src, n, 2);
    var b2 := ChunkB(b1, src, n, 2);
    ChunkMakes(b2, e, src, n, 3);
    var b3 := ChunkB(b2, src, n, 3);
    ChunkMakes(b3, e, src, n, 4);
    var b4 := ChunkB(b3, src, n, 4);
    ChunkMakes(b4, e, src, n, 5);
  }

  lemma ChunkMakes(b: BState, e: Scene, src: nat, n: Dims, j: nat)
    requires Passes(b, e) && Mags(b, e, src, INT8) && n.d < TWO32
    ensures Makes(b, ChunkB(b, src, n, j), e, INT8)
  {
    hide Known, Mags, Passes, Out, ExtractColsB, At;
    ExtractColsMakes(b, e, src, INT8, n.s, 6 * n.d, At(j, n.d, 0), n.d);
  }

  lemma CapsParts(e: Scene, n: Dims, dp: DerivedParams, t: Tables)
    requires StepCaps(e, n, dp, t)
    ensures n.d < TWO32 && ValidShift(dp.gateMsaBits) && ValidShift(dp.gateMlpBits)
  {
  }

  /** Half a block: normalize and modulate, the sub-block, the gated residual. */
  lemma AttnHalfMakes(b: BState, e: Scene, x: nat, sc: nat, sh: nat, g: nat, n: Dims, w: BlockWeights, qb: QuantBlock,
                      dp: DerivedParams, bs: BlockShifts, t: Tables)
    requires Passes(b, e) && StepCaps(e, n, dp, t) && BlockReady(e, w, n, qb) && ShiftsOk(bs)
    requires Mags(b, e, x, INT8) && Mags(b, e, sc, INT8) && Mags(b, e, sh, INT8) && Mags(b, e, g, INT8)
    ensures var b1 := NormModB(b, x, sc, sh, n, dp);
            var b2 := AttnB(b1, Out(b1), n, w, dp, bs);
            Makes(b, ResidualB(b2, x, g, Out(b2), dp.gateMsaBits), e, INT8)
  {
    CapsParts(e, n, dp, t);
    hide Known, Mags, Passes, Out, NormModB, AttnB, ResidualB, StepCaps, BlockReady, ShiftsOk;
    NormModMakes(b, e, x, sc, sh, n, dp, t);
    var b1 := NormModB(b, x, sc, sh, n, dp);
    AttnMakes(b1, e, Out(b1), n, w, qb, dp, bs, t);
    var b2 := AttnB(b1, Out(b1), n, w, dp, bs);
    ResidualMakes(b2, e, x, g, Out(b2), dp.gateMsaBits);
  }

  lemma FfnHalfMakes(b: BState, e: Scene, x: nat, sc: nat, sh: nat, g: nat, n: Dims, w: BlockWeights, qb: QuantBlock,
                     dp: DerivedParams, bs: BlockShifts, t: Tables)
    requires Passes(b, e) && StepCaps(e, n, dp, t) && BlockReady(e, w, n, qb) && ShiftsOk(bs)
    requires Mags(b, e, x, INT8) && Mags(b, e, sc, INT8) && Mags(b, e, sh, INT8) && Mags(b, e, g, INT8)
    ensures var b1 := NormModB(b, x, sc, sh, n, dp);
            var b2 := FfnB(b1, Out(b1), n, w, dp, bs);
            Makes(b, ResidualB(b2, x, g, Out(b2), dp.gateMlpBits), e, INT8)
  {
    CapsParts(e, n, dp, t);
    hide Known, Mags, Passes, Out, NormModB, FfnB, ResidualB, StepCaps, BlockReady, ShiftsOk;
    NormModMakes(b, e, x, sc, sh, n, dp, t);
    var b1 := NormModB(b, x, sc, sh, n, dp);
    FfnMakes(b1, e, Out(b1), n, w, qb, dp, bs, t);
    var b2 := FfnB(b1, Out(b1), n, w, dp, bs);
    ResidualMakes(b2, e, x, g, Out(b2), dp.gateMlpBits);
  }

  lemma BlockMakes(b: BState, e: Scene, x: nat, c: nat, n: Dims, w: BlockWeights, qb: QuantBlock,
                   dp: DerivedParams, bs: BlockShifts, t: Tables)
    requires Passes(b, e) && StepCaps(e, n, dp, t) && BlockReady(e, w, n, qb) && ShiftsOk(bs)
    requires Mags(b, e, x, INT8) && Mags(b, e, c, INT8)
    ensures Makes(b, ConditionalBlockB(b, x, c, n, w, dp, bs), e, INT8)
  {
    CapsParts(e, n, dp, t);
    hide Known, Mags, Passes, Out, AdalnB, ChunksB, NormModB, AttnB, FfnB, ResidualB, StepCaps, BlockReady, ShiftsOk;
    AdalnMakes(b, e, c, n, w, qb, dp, bs, t);
    var b1 := AdalnB(b, c, n, w, bs);
    ChunksMakes(b1, e, Out(b1), n);
    var ch := ChunksB(b1, Out(b1), n);
    AttnHalfMakes(ch.b, e, x, ch.scMsa, ch.shMsa, ch.gMsa, n, w, qb, dp, bs, t);
    var b2 := NormModB(ch.b, x, ch.scMsa, ch.shMsa, n, dp);
    var b3 := AttnB(b2, Out(b2), n, w, dp, bs);
    var b4 := ResidualB(b3, x, ch.gMsa, Out(b3), dp.gateMsaBits);
    FfnHalfMakes(b4, e, Out(b4), ch.scMlp, ch.shMlp, ch.gMlp, n, w, qb, dp, bs, t);
  }
}
