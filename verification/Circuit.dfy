/**
 * crates/pwm-testkit/src/lewm_predictor.rs: the circuit compiler. A predictor step is
 * flattened into one list of named-buffer ops. Every builder step is a function from
 * state to state, and class Builder makes the same steps in place.
 */
module Circuit {
  import opened Wrappers
  import opened Arith
  import opened Blocks
  import opened Tensors
  import opened FixedPoint
  import opened IntegerForward
  import Field

  const TABLE_SILU: nat := 1
  const TABLE_GELU: nat := 2
  const TABLE_INVSQRT: nat := 3
  const TABLE_EXP: nat := 4
  const RND: nat := 0
  const SCALE_W_BASE: nat := 10

  /** The cast `as u32`. */
  function U32(x: nat): nat { x % TWO32 }

  /** The cast keeps a u32 and drops multiples of 2^32. */
  lemma U32Truncates(x: nat)
    ensures U32(x) < 0x1_0000_0000 && (x - U32(x)) % 0x1_0000_0000 == 0
    ensures x < 0x1_0000_0000 ==> U32(x) == x
  {
  }

  datatype BState = BState(
    ops: seq<BlockOp>, nextBuf: nat, nextOp: nat, nextWeight: nat, inputs: Inputs, weights: seq<TensorT>)

  const EMPTY := BState([], 0, 1, 1000, [], [])

  /** The buffer allocated last: what every op-emitting step returns. */
  function Out(b: BState): nat {
    if b.nextBuf == 0 then 0 else b.nextBuf - 1
  }

  function Emit(b: BState, op: BlockOp): BState {
    b.(ops := b.ops + [op], nextBuf := b.nextBuf + 1, nextOp := b.nextOp + 1)
  }

  /** Every weight op is a batched linear without a bias. */
  predicate Biasless(ops: seq<BlockOp>) {
    forall i :: 0 <= i < |ops| ==> !ops[i].Linear? && (ops[i].BatchedLinear? ==> ops[i].biasId == None)
  }

  /** int8 clamps, nearest-even rounding, no zero point, and the table each kernel is for. */
  predicate Canonical(op: BlockOp) {
    match op
    case Linear(_, _, _, _, _, _) => false
    case Requant(_, _, _, _, _, zeroPoint, lo, hi, rounding) =>
      zeroPoint == 0 && lo == -128 && hi == 127 && rounding == 0
    case Activation(_, tableId, _, _, _) => tableId == 1 || tableId == 2
    case LayerNorm(_, tableId, _, _, _, _, lo, hi, rounding) => tableId == 3 && lo == -128 && hi == 127 && rounding == 0
    case Modulate(_, _, _, _, _, _, _, _, lo, hi, rounding) => lo == -128 && hi == 127 && rounding == 0
    case Gate(_, _, _, _, _, _, lo, hi, rounding) => lo == -128 && hi == 127 && rounding == 0
    case Softmax(_, tableId, _, _, _, _, _) => tableId == 4
    case _ => true
  }

  /** Op `i` carries id i + 1, writes the next free buffer, and claims nothing yet. */
  predicate InOrder(b: BState) {
    && b.nextOp == |b.ops| + 1 && b.nextBuf == |b.inputs| + |b.ops|
    && forall i :: 0 <= i < |b.ops| ==>
         b.ops[i].opId == i + 1 && b.ops[i].outBuf == |b.inputs| + i && b.ops[i].out == [] && Canonical(b.ops[i])
  }

  /** Emitting ops registers no weight, seeds no input, adds no biased linear and numbers on. */
  predicate SameStatics(b: BState, b': BState) {
    && b'.weights == b.weights && b'.nextWeight == b.nextWeight && b'.inputs == b.inputs
    && (Biasless(b.ops) ==> Biasless(b'.ops))
    && (InOrder(b) ==> InOrder(b'))
  }

  function InputB(b: BState, vals: seq<int>): BState {
    b.(nextBuf := b.nextBuf + 1, inputs := b.inputs + [(b.nextBuf, vals)])
  }

  // ------------------------------------------------------------ single-op steps

  function RequantB(b: BState, inBuf: nat, shift: nat): (r: BState)
    ensures SameStatics(b, r)
  {
    Emit(b, BlockOp.Requant(b.nextOp, inBuf, b.nextBuf, [], shift, 0, CLO, CHI, RND))
  }

  function BatchedLinearB(b: BState, inBuf: nat, weightId: nat, s: nat): (r: BState)
    ensures SameStatics(b, r)
  {
    Emit(b, BlockOp.BatchedLinear(b.nextOp, weightId, None, inBuf, b.nextBuf, [], U32(s)))
  }

  function ActivationB(b: BState, inBuf: nat, tableId: nat): (r: BState)
    ensures tableId == TABLE_SILU || tableId == TABLE_GELU ==> SameStatics(b, r)
  {
    Emit(b, BlockOp.Activation(b.nextOp, tableId, inBuf, b.nextBuf, []))
  }

  function LayerNormB(b: BState, inBuf: nat, tableId: nat, shift: nat): (r: BState)
    ensures tableId == TABLE_INVSQRT ==> SameStatics(b, r)
  {
    Emit(b, BlockOp.LayerNorm(b.nextOp, tableId, inBuf, b.nextBuf, [], shift, CLO, CHI, RND))
  }

  function ModulateB(b: BState, x: nat, scale: nat, shift: nat, one: int, bits: nat): (r: BState)
    ensures SameStatics(b, r)
  {
    Emit(b, BlockOp.Modulate(b.nextOp, x, scale, shift, b.nextBuf, [], one, bits, CLO, CHI, RND))
  }

  function GateB(b: BState, g: nat, x: nat, bits: nat): (r: BState)
    ensures SameStatics(b, r)
  {
    Emit(b, BlockOp.Gate(b.nextOp, g, x, b.nextBuf, [], bits, CLO, CHI, RND))
  }

  function AddB(b: BState, x: nat, y: nat): (r: BState)
    ensures SameStatics(b, r)
  {
    Emit(b, BlockOp.Add(b.nextOp, x, y, b.nextBuf, []))
  }

  function MatMulB(b: BState, x: nat, y: nat, rows: nat, inner: nat, cols: nat, transposed: bool): (r: BState)
    ensures SameStatics(b, r)
  {
    Emit(b, BlockOp.MatMul(b.nextOp, x, y, b.nextBuf, [], U32(rows), U32(inner), U32(cols), transposed))
  }

  function SoftmaxB(b: BState, inBuf: nat, tableId: nat, rowLen: nat, one: int): (r: BState)
    ensures tableId == TABLE_EXP ==> SameStatics(b, r)
  {
    Emit(b, BlockOp.Softmax(b.nextOp, tableId, inBuf, b.nextBuf, [], U32(rowLen), one))
  }

  function SliceB(b: BState, inBuf: nat, start: nat, len: nat): (r: BState)
    ensures SameStatics(b, r)
  {
    Emit(b, BlockOp.Slice(b.nextOp, inBuf, b.nextBuf, U32(start), U32(len), []))
  }

  function ConcatB(b: BState, ids: seq<nat>): (r: BState)
    ensures SameStatics(b, r)
  {
    Emit(b, BlockOp.Concat(b.nextOp, ids, b.nextBuf, []))
  }

  // --------------------------------------------------------------- row-wise steps

  /** A state, and the buffers collected so far. */
  datatype Listed = Listed(b: BState, ids: seq<nat>)

  function At(p: nat, width: nat, col: nat): nat {
    MulMono(0, p, width);
    p * width + col
  }

  function SliceRow(l: Listed, src: nat, start: nat, len: nat): (r: Listed)
    ensures SameStatics(l.b, r.b)
  {
    var b1 := SliceB(l.b, src, start, len);
    Listed(b1, l.ids + [Out(b1)])
  }

  function LnRowB(l: Listed, x: nat, p: nat, d: nat, shift: nat): (r: Listed)
    ensures SameStatics(l.b, r.b)
  {
    var b1 := SliceB(l.b, x, At(p, d, 0), d);
    var b2 := LayerNormB(b1, Out(b1), TABLE_INVSQRT, shift);
    Listed(b2, l.ids + [Out(b2)])
  }

  /** The first `p` rows sliced and normalized. */
  function LnLoop(b: BState, x: nat, d: nat, shift: nat, p: nat): (r: Listed)
    ensures SameStatics(b, r.b)
  {
    if p == 0 then Listed(b, []) else LnRowB(LnLoop(b, x, d, shift, p - 1), x, p - 1, d, shift)
  }

  function LnPerPosB(b: BState, x: nat, s: nat, d: nat, shift: nat): (r: BState)
    ensures SameStatics(b, r)
  {
    var l := LnLoop(b, x, d, shift, s);
    ConcatB(l.b, l.ids)
  }

  /** The columns `[col, col + len)` of the first `p` rows. */
  function BandLoop(b: BState, src: nat, width: nat, col: nat, len: nat, p: nat): (r: Listed)
    ensures SameStatics(b, r.b)
  {
    if p == 0 then Listed(b, [])
    else SliceRow(BandLoop(b, src, width, col, len, p - 1), src, At(p - 1, width, col), len)
  }

  function ExtractColsB(b: BState, src: nat, s: nat, width: nat, col: nat, len: nat): (r: BState)
    ensures SameStatics(b, r)
  {
    var l := BandLoop(b, src, width, col, len, s);
    ConcatB(l.b, l.ids)
  }

  // -------------------------------------------------------------------- sub-blocks

  datatype BlockWeights = BlockWeights(adaln: nat, qkv: nat, out: nat, fc1: nat, fc2: nat)

  /** The head's columns of q, k and v, gathered. */
  function HeadInB(b: BState, q: nat, k: nat, v: nat, n: Dims, i: nat): (r: (BState, nat, nat, nat))
    ensures SameStatics(b, r.0)
  {
    var b1 := ExtractColsB(b, q, n.s, n.Inner(), At(i, n.dh, 0), n.dh);
    var b2 := ExtractColsB(b1, k, n.s, n.Inner(), At(i, n.dh, 0), n.dh);
    var b3 := ExtractColsB(b2, v, n.s, n.Inner(), At(i, n.dh, 0), n.dh);
    (b3, Out(b1), Out(b2), Out(b3))
  }

  /** Scores, probabilities, mix. */
  function HeadMixB(b: BState, qh: nat, kh: nat, vh: nat, n: Dims, dp: DerivedParams): (r: BState)
    ensures SameStatics(b, r)
  {
    var b1 := MatMulB(b, qh, kh, n.s, n.dh, n.s, true);
    var b2 := RequantB(b1, Out(b1), dp.scoreShift);
    var b3 := SoftmaxB(b2, Out(b2), TABLE_EXP, n.s, dp.softmaxOne);
    var b4 := MatMulB(b3, Out(b3), vh, n.s, n.s, n.dh, false);
    RequantB(b4, Out(b4), dp.ohShift)
  }

  function HeadB(b: BState, q: nat, k: nat, v: nat, n: Dims, i: nat, dp: DerivedParams): (r: BState)
    ensures SameStatics(b, r)
  {
    var (b1, qh, kh, vh) := HeadInB(b, q, k, v, n, i);
    HeadMixB(b1, qh, kh, vh, n, dp)
  }

  function HeadLoop(b: BState, q: nat, k: nat, v: nat, n: Dims, dp: DerivedParams, i: nat): (r: Listed)
    ensures SameStatics(b, r.b)
  {
    if i == 0 then Listed(b, [])
    else
      var l := HeadLoop(b, q, k, v, n, dp, i - 1);
      var b1 := HeadB(l.b, q, k, v, n, i - 1, dp);
      Listed(b1, l.ids + [Out(b1)])
  }

  /** The slices of one position, over the first `i` heads. */
  function PartRow(l: Listed, heads: seq<nat>, start: nat, len: nat, i: nat): (r: Listed)
    requires i <= |heads|
    ensures SameStatics(l.b, r.b)
  {
    if i == 0 then l else SliceRow(PartRow(l, heads, start, len, i - 1), heads[i - 1], start, len)
  }

  /** Position-major, heads within a position. */
  function PartLoop(b: BState, heads: seq<nat>, dh: nat, p: nat): (r: Listed)
    ensures SameStatics(b, r.b)
  {
    if p == 0 then Listed(b, [])
    else PartRow(PartLoop(b, heads, dh, p - 1), heads, At(p - 1, dh, 0), dh, |heads|)
  }

  /** The fused projection, and its three column bands. */
  function QkvB(b: BState, x: nat, n: Dims, w: nat, dp: DerivedParams, bs: BlockShifts): (r: (BState, nat, nat, nat))
    ensures SameStatics(b, r.0)
  {
    var inner := n.Inner();
    var b1 := LnPerPosB(b, x, n.s, n.d, dp.lnShift);
    var b2 := BatchedLinearB(b1, Out(b1), w, n.s);
    var b3 := RequantB(b2, Out(b2), bs.qkv);
    var b4 := ExtractColsB(b3, Out(b3), n.s, 3 * inner, 0, inner);
    var b5 := ExtractColsB(b4, Out(b3), n.s, 3 * inner, inner, inner);
    var b6 := ExtractColsB(b5, Out(b3), n.s, 3 * inner, 2 * inner, inner);
    (b6, Out(b4), Out(b5), Out(b6))
  }

  /** Every head, reassembled into one `[s, inner]` buffer. */
  function HeadsB(b: BState, q: nat, k: nat, v: nat, n: Dims, dp: DerivedParams): (r: BState)
    ensures SameStatics(b, r)
  {
    var heads := HeadLoop(b, q, k, v, n, dp, n.h);
    var parts := PartLoop(heads.b, heads.ids, n.dh, n.s);
    ConcatB(parts.b, parts.ids)
  }

  function AttnB(b: BState, x: nat, n: Dims, w: BlockWeights, dp: DerivedParams, bs: BlockShifts): (r: BState)
    ensures SameStatics(b, r)
  {
    var (b1, q, k, v) := QkvB(b, x, n, w.qkv, dp, bs);
    var b2 := HeadsB(b1, q, k, v, n, dp);
    var b3 := BatchedLinearB(b2, Out(b2), w.out, n.s);
    RequantB(b3, Out(b3), bs.out)
  }

  function FfnB(b: BState, x: nat, n: Dims, w: BlockWeights, dp: DerivedParams, bs: BlockShifts): (r: BState)
    ensures SameStatics(b, r)
  {
    var b1 := LnPerPosB(b, x, n.s, n.d, dp.lnShift);
    var b2 := BatchedLinearB(b1, Out(b1), w.fc1, n.s);
    var b3 := RequantB(b2, Out(b2), bs.fc1);
    var b4 := ActivationB(b3, Out(b3), TABLE_GELU);
    var b5 := BatchedLinearB(b4, Out(b4), w.fc2, n.s);
    RequantB(b5, Out(b5), bs.fc2)
  }

  /** The six AdaLN parameter buffers of one block. */
  datatype Chunks = Chunks(b: BState, shMsa: nat, scMsa: nat, gMsa: nat, shMlp: nat, scMlp: nat, gMlp: nat)

  function ChunkB(b: BState, adaln: nat, n: Dims, j: nat): (r: BState)
    ensures SameStatics(b, r)
  {
    ExtractColsB(b, adaln, n.s, 6 * n.d, At(j, n.d, 0), n.d)
  }

  function ChunksB(b: BState, adaln: nat, n: Dims): (r: Chunks)
    ensures SameStatics(b, r.b)
  {
    var b0 := ChunkB(b, adaln, n, 0);
    var b1 := ChunkB(b0, adaln, n, 1);
    var b2 := ChunkB(b1, adaln, n, 2);
    var b3 := ChunkB(b2, adaln, n, 3);
    var b4 := ChunkB(b3, adaln, n, 4);
    var b5 := ChunkB(b4, adaln, n, 5);
    Chunks(b5, Out(b0), Out(b1), Out(b2), Out(b3), Out(b4), Out(b5))
  }

  function AdalnB(b: BState, c: nat, n: Dims, w: BlockWeights, bs: BlockShifts): (r: BState)
    ensures SameStatics(b, r)
  {
    var b1 := ActivationB(b, c, TABLE_SILU);
    var b2 := BatchedLinearB(b1, Out(b1), w.adaln, n.s);
    RequantB(b2, Out(b2), bs.adaln)
  }

  /** Normalize, then modulate. */
  function NormModB(b: BState, x: nat, scale: nat, shift: nat, n: Dims, dp: DerivedParams): (r: BState)
    ensures SameStatics(b, r)
  {
    var b1 := LnPerPosB(b, x, n.s, n.d, dp.lnShift);
    ModulateB(b1, Out(b1), scale, shift, dp.modOne, dp.modBits)
  }

  /** `x + gate * y`, requantized. */
  function ResidualB(b: BState, x: nat, gate: nat, y: nat, bits: nat): (r: BState)
    ensures SameStatics(b, r)
  {
    var b1 := GateB(b, gate, y, bits);
    var b2 := AddB(b1, x, Out(b1));
    RequantB(b2, Out(b2), 0)
  }

  function ConditionalBlockB(b: BState, x: nat, c: nat, n: Dims, w: BlockWeights, dp: DerivedParams,
                             bs: BlockShifts): (r: BState)
    ensures SameStatics(b, r)
  {
    var b1 := AdalnB(b, c, n, w, bs);
    var ch := ChunksB(b1, Out(b1), n);
    var b2 := NormModB(ch.b, x, ch.scMsa, ch.shMsa, n, dp);
    var b3 := AttnB(b2, Out(b2), n, w, dp, bs);
    var b4 := ResidualB(b3, x, ch.gMsa, Out(b3), dp.gateMsaBits);
    var b5 := NormModB(b4, Out(b4), ch.scMlp, ch.shMlp, n, dp);
    var b6 := FfnB(b5, Out(b5), n, w, dp, bs);
    ResidualB(b6, Out(b4), ch.gMlp, Out(b6), dp.gateMlpBits)
  }

  // ------------------------------------------------------------ weights, whole step

  /** A matrix of int8 weights that `Tensor::new` accepts. */
  predicate WeightOk(rows: nat, cols: nat, vals: seq<int>) {
    rows < TWO32 && cols < TWO32 && |vals| == rows * cols && AllIn(vals, CLO, CHI)
  }

  function WeightTensor(id: nat, scaleId: nat, rows: nat, cols: nat, vals: seq<int>): (t: TensorT)
    requires WeightOk(rows, cols, vals)
    ensures t.tensorId == id && t.scaleId == scaleId && t.shape == [rows, cols] && t.Values() == vals
    ensures forall i :: 0 <= i < |vals| ==> t.data[i] == BoundedInt(vals[i], -128, 127)
  {
    WeightShape(rows, cols);
    Tensor(id, [rows, cols], scaleId, seq(|vals|, i requires 0 <= i < |vals| => BoundedInt(vals[i], CLO, CHI)))
  }

  lemma WeightShape(rows: nat, cols: nat)
    requires rows < TWO32 && cols < TWO32
    ensures 0 <= rows * cols && CheckedProduct([rows, cols]) == Some(rows * cols)
  {
    MulMono(0, rows, cols);
    MulMono(rows, TWO32 - 1, cols);
    MulMono(cols, TWO32 - 1, TWO32 - 1);
    TwoDims(rows, cols);
  }

  function WeightB(b: BState, rows: nat, cols: nat, vals: seq<int>): BState
    requires WeightOk(rows, cols, vals)
  {
    b.(nextWeight := b.nextWeight + 1,
       weights := b.weights + [WeightTensor(b.nextWeight, SCALE_W_BASE + |b.weights|, rows, cols, vals)])
  }

  /** Dimensions for which every cast to u32 is exact. */
  predicate FitsU32(n: Dims) {
    && n.s * (6 * n.d) < TWO32 && n.s * (3 * n.Inner()) < TWO32
    && 6 * n.d < TWO32 && 3 * n.Inner() < TWO32 && n.s < TWO32 && n.mlp < TWO32
  }

  /** What registering one block's weights demands. */
  predicate BlockOk(n: Dims, qb: QuantBlock) {
    && WeightOk(6 * n.d, n.d, qb.adaln)
    && WeightOk(3 * n.Inner(), n.d, qb.qkv)
    && WeightOk(n.d, n.Inner(), qb.out)
    && WeightOk(n.mlp, n.d, qb.fc1)
    && WeightOk(n.d, n.mlp, qb.fc2)
  }

  function WeightIds(b: BState): BlockWeights {
    var k := b.nextWeight;
    BlockWeights(k, k + 1, k + 2, k + 3, k + 4)
  }

  function BlockWeightsB(b: BState, n: Dims, qb: QuantBlock): BState
    requires BlockOk(n, qb)
  {
    var b1 := WeightB(b, 6 * n.d, n.d, qb.adaln);
    var b2 := WeightB(b1, 3 * n.Inner(), n.d, qb.qkv);
    var b3 := WeightB(b2, n.d, n.Inner(), qb.out);
    var b4 := WeightB(b3, n.mlp, n.d, qb.fc1);
    WeightB(b4, n.d, n.mlp, qb.fc2)
  }

  /** A state and the buffer holding the residual stream. */
  datatype Stage = Stage(b: BState, x: nat)

  function BlockB(g: Stage, c: nat, n: Dims, qb: QuantBlock, dp: DerivedParams, bs: BlockShifts): Stage
    requires BlockOk(n, qb)
  {
    var b1 := BlockWeightsB(g.b, n, qb);
    var b2 := ConditionalBlockB(b1, g.x, c, n, WeightIds(g.b), dp, bs);
    Stage(b2, Out(b2))
  }

  function StartB(xv: seq<int>, cv: seq<int>): Stage {
    var b1 := InputB(EMPTY, xv);
    Stage(InputB(b1, cv), Out(b1))
  }

  function BlocksB(g: Stage, c: nat, n: Dims, qbs: seq<QuantBlock>, dp: DerivedParams, i: nat): Stage
    requires i <= |qbs| == |dp.blocks| && forall j :: 0 <= j < |qbs| ==> BlockOk(n, qbs[j])
  {
    if i == 0 then g
    else BlockB(BlocksB(g, c, n, qbs, dp, i - 1), c, n, qbs[i - 1], dp, dp.blocks[i - 1])
  }

  /** The whole step: inputs, blocks, final norm. */
  function PredictorB(n: Dims, xv: seq<int>, cv: seq<int>, qbs: seq<QuantBlock>, dp: DerivedParams): BState
    requires |qbs| == |dp.blocks| && forall j :: 0 <= j < |qbs| ==> BlockOk(n, qbs[j])
  {
    var g := StartB(xv, cv);
    var last := BlocksB(g, Out(g.b), n, qbs, dp, |qbs|);
    LnPerPosB(last.b, last.x, n.s, n.d, dp.lnShift)
  }

  datatype PredictorCircuit = PredictorCircuit(block: Block, weights: seq<TensorT>, inputs: Inputs)

  function InputIds(inputs: Inputs): seq<nat> {
    seq(|inputs|, i requires 0 <= i < |inputs| => inputs[i].0)
  }

  function BuildPredictor(n: Dims, xv: seq<int>, cv: seq<int>, qbs: seq<QuantBlock>,
                          dp: DerivedParams): PredictorCircuit
    requires |qbs| == |dp.blocks| && forall j :: 0 <= j < |qbs| ==> BlockOk(n, qbs[j])
  {
    var b := PredictorB(n, xv, cv, qbs, dp);
    PredictorCircuit(Block(InputIds(b.inputs), b.ops, Out(b)), b.weights, b.inputs)
  }
}
