/**
 * crates/pwm-testkit/src/lewm_predictor.rs: the builder in place. Each method advances
 * the fields exactly as the state function of the same name.
 */
module CircuitBuilder {
  import opened Wrappers
  import opened Arith
  import opened Blocks
  import opened Tensors
  import opened IntegerForward
  import opened Circuit

  class Builder {
    var ops: seq<BlockOp>
    var nextBuf: nat
    var nextOp: nat
    var nextWeight: nat
    var inputs: Inputs
    var weights: seq<TensorT>

    ghost function State(): BState
      reads this
    {
      BState(ops, nextBuf, nextOp, nextWeight, inputs, weights)
    }

    constructor ()
      ensures State() == EMPTY
    {
      ops, nextBuf, nextOp, nextWeight, inputs, weights := [], 0, 1, 1000, [], [];
    }

    method Buf() returns (id: nat)
      modifies this`nextBuf
      ensures id == old(nextBuf) && nextBuf == id + 1
    {
      id := nextBuf;
      nextBuf := nextBuf + 1;
    }

    method Op() returns (id: nat)
      modifies this`nextOp
      ensures id == old(nextOp) && nextOp == id + 1
    {
      id := nextOp;
      nextOp := nextOp + 1;
    }

    method Input(vals: seq<int>) returns (id: nat)
      modifies this
      ensures State() == InputB(old(State()), vals) && id == Out(State())
    {
      id := Buf();
      inputs := inputs + [(id, vals)];
    }

    method Weight(rows: nat, cols: nat, vals: seq<int>) returns (id: nat)
      requires WeightOk(rows, cols, vals)
      modifies this
      ensures State() == WeightB(old(State()), rows, cols, vals) && id == old(nextWeight)
    {
      id := nextWeight;
      nextWeight := nextWeight + 1;
      weights := weights + [WeightTensor(id, SCALE_W_BASE + |weights|, rows, cols, vals)];
    }

    method Requant(inBuf: nat, shift: nat) returns (out: nat)
      modifies this
      ensures State() == RequantB(old(State()), inBuf, shift) && out == Out(State())
    {
      out := Buf();
      var op := Op();
      ops := ops + [BlockOp.Requant(op, inBuf, out, [], shift, 0, CLO, CHI, RND)];
    }

    method BatchedLinear(inBuf: nat, weightId: nat, s: nat) returns (out: nat)
      modifies this
      ensures State() == BatchedLinearB(old(State()), inBuf, weightId, s) && out == Out(State())
    {
      out := Buf();
      var op := Op();
      ops := ops + [BlockOp.BatchedLinear(op, weightId, None, inBuf, out, [], U32(s))];
    }

    method Activation(inBuf: nat, tableId: nat) returns (out: nat)
      modifies this
      ensures State() == ActivationB(old(State()), inBuf, tableId) && out == Out(State())
    {
      out := Buf();
      var op := Op();
      ops := ops + [BlockOp.Activation(op, tableId, inBuf, out, [])];
    }

    method LayerNorm(inBuf: nat, tableId: nat, shift: nat) returns (out: nat)
      modifies this
      ensures State() == LayerNormB(old(State()), inBuf, tableId, shift) && out == Out(State())
    {
      out := Buf();
      var op := Op();
      ops := ops + [BlockOp.LayerNorm(op, tableId, inBuf, out, [], shift, CLO, CHI, RND)];
    }

    method Modulate(x: nat, scale: nat, shift: nat, one: int, bits: nat) returns (out: nat)
      modifies this
      ensures State() == ModulateB(old(State()), x, scale, shift, one, bits) && out == Out(State())
    {
      out := Buf();
      var op := Op();
      ops := ops + [BlockOp.Modulate(op, x, scale, shift, out, [], one, bits, CLO, CHI, RND)];
    }

    method Gate(g: nat, x: nat, bits: nat) returns (out: nat)
      modifies this
      ensures State() == GateB(old(State()), g, x, bits) && out == Out(State())
    {
      out := Buf();
      var op := Op();
      ops := ops + [BlockOp.Gate(op, g, x, out, [], bits, CLO, CHI, RND)];
    }

    method Add(x: nat, y: nat) returns (out: nat)
      modifies this
      ensures State() == AddB(old(State()), x, y) && out == Out(State())
    {
      out := Buf();
      var op := Op();
      ops := ops + [BlockOp.Add(op, x, y, out, [])];
    }

    method MatMul(x: nat, y: nat, rows: nat, inner: nat, cols: nat, transposed: bool) returns (out: nat)
      modifies this
      ensures State() == MatMulB(old(State()), x, y, rows, inner, cols, transposed) && out == Out(State())
    {
      out := Buf();
      var op := Op();
      ops := ops + [BlockOp.MatMul(op, x, y, out, [], U32(rows), U32(inner), U32(cols), transposed)];
    }

    method Softmax(inBuf: nat, tableId: nat, rowLen: nat, one: int) returns (out: nat)
      modifies this
      ensures State() == SoftmaxB(old(State()), inBuf, tableId, rowLen, one) && out == Out(State())
    {
      out := Buf();
      var op := Op();
      ops := ops + [BlockOp.Softmax(op, tableId, inBuf, out, [], U32(rowLen), one)];
    }

    method Slice(inBuf: nat, start: nat, len: nat) returns (out: nat)
      modifies this
      ensures State() == SliceB(old(State()), inBuf, start, len) && out == Out(State())
    {
      out := Buf();
      var op := Op();
      ops := ops + [BlockOp.Slice(op, inBuf, out, U32(start), U32(len), [])];
    }

    method Concat(bufs: seq<nat>) returns (out: nat)
      modifies this
      ensures State() == ConcatB(old(State()), bufs) && out == Out(State())
    {
      out := Buf();
      var op := Op();
      ops := ops + [BlockOp.Concat(op, bufs, out, [])];
    }

    method LnPerPos(x: nat, s: nat, d: nat, shift: nat) returns (out: nat)
      modifies this
      ensures State() == LnPerPosB(old(State()), x, s, d, shift) && out == Out(State())
    {
      var rows: seq<nat> := [];
      for p := 0 to s
        invariant Listed(State(), rows) == LnLoop(old(State()), x, d, shift, p)
      {
        var r := Slice(x, At(p, d, 0), d);
        var y := LayerNorm(r, TABLE_INVSQRT, shift);
        rows := rows + [y];
      }
      out := Concat(rows);
    }

    method ExtractCols(src: nat, s: nat, width: nat, col: nat, len: nat) returns (out: nat)
      modifies this
      ensures State() == ExtractColsB(old(State()), src, s, width, col, len) && out == Out(State())
    {
      var rows: seq<nat> := [];
      for p := 0 to s
        invariant Listed(State(), rows) == BandLoop(old(State()), src, width, col, len, p)
      {
        var r := Slice(src, At(p, width, col), len);
        rows := rows + [r];
      }
      out := Concat(rows);
    }
  }

  method Head(b: Builder, q: nat, k: nat, v: nat, n: Dims, h: nat, dp: DerivedParams) returns (out: nat)
    modifies b
    ensures b.State() == HeadB(old(b.State()), q, k, v, n, h, dp) && out == Out(b.State())
  {
    var qh := b.ExtractCols(q, n.s, n.Inner(), At(h, n.dh, 0), n.dh);
    var kh := b.ExtractCols(k, n.s, n.Inner(), At(h, n.dh, 0), n.dh);
    var vh := b.ExtractCols(v, n.s, n.Inner(), At(h, n.dh, 0), n.dh);
    assert (b.State(), qh, kh, vh) == HeadInB(old(b.State()), q, k, v, n, h);
    var scores := b.MatMul(qh, kh, n.s, n.dh, n.s, true);
    scores := b.Requant(scores, dp.scoreShift);
    var prob := b.Softmax(scores, TABLE_EXP, n.s, dp.softmaxOne);
    var oh := b.MatMul(prob, vh, n.s, n.s, n.dh, false);
    out := b.Requant(oh, dp.ohShift);
  }

  /** Every head, then their slices position by position. */
  method Heads(b: Builder, q: nat, k: nat, v: nat, n: Dims, dp: DerivedParams) returns (out: nat)
    modifies b
    ensures b.State() == HeadsB(old(b.State()), q, k, v, n, dp) && out == Out(b.State())
  {
    var headOuts: seq<nat> := [];
    for h := 0 to n.h
      invariant Listed(b.State(), headOuts) == HeadLoop(old(b.State()), q, k, v, n, dp, h)
    {
      var oh := Head(b, q, k, v, n, h, dp);
      headOuts := headOuts + [oh];
    }
    var parts: seq<nat> := [];
    ghost var start := b.State();
    for p := 0 to n.s
      invariant Listed(b.State(), parts) == PartLoop(start, headOuts, n.dh, p)
    {
      for h := 0 to |headOuts|
        invariant Listed(b.State(), parts) == PartRow(PartLoop(start, headOuts, n.dh, p), headOuts, At(p, n.dh, 0),
                                                      n.dh, h)
      {
        var part := b.Slice(headOuts[h], At(p, n.dh, 0), n.dh);
        parts := parts + [part];
      }
    }
    out := b.Concat(parts);
  }

  method Attn(b: Builder, x: nat, n: Dims, w: BlockWeights, dp: DerivedParams, bs: BlockShifts) returns (out: nat)
    modifies b
    ensures b.State() == AttnB(old(b.State()), x, n, w, dp, bs) && out == Out(b.State())
  {
    var inner := n.Inner();
    var a := b.LnPerPos(x, n.s, n.d, dp.lnShift);
    var qkv := b.BatchedLinear(a, w.qkv, n.s);
    qkv := b.Requant(qkv, bs.qkv);
    var q := b.ExtractCols(qkv, n.s, 3 * inner, 0, inner);
    var k := b.ExtractCols(qkv, n.s, 3 * inner, inner, inner);
    var v := b.ExtractCols(qkv, n.s, 3 * inner, 2 * inner, inner);
    assert (b.State(), q, k, v) == QkvB(old(b.State()), x, n, w.qkv, dp, bs);
    var cat := Heads(b, q, k, v, n, dp);
    out := b.BatchedLinear(cat, w.out, n.s);
    out := b.Requant(out, bs.out);
  }

  method Ffn(b: Builder, x: nat, n: Dims, w: BlockWeights, dp: DerivedParams, bs: BlockShifts) returns (out: nat)
    modifies b
    ensures b.State() == FfnB(old(b.State()), x, n, w, dp, bs) && out == Out(b.State())
  {
    var f := b.LnPerPos(x, n.s, n.d, dp.lnShift);
    var h1 := b.BatchedLinear(f, w.fc1, n.s);
    h1 := b.Requant(h1, bs.fc1);
    var g := b.Activation(h1, TABLE_GELU);
    var h2 := b.BatchedLinear(g, w.fc2, n.s);
    out := b.Requant(h2, bs.fc2);
  }

  /** Gate, add, requantize to int8. */
  method Residual(b: Builder, x: nat, gate: nat, y: nat, bits: nat) returns (out: nat)
    modifies b
    ensures b.State() == ResidualB(old(b.State()), x, gate, y, bits) && out == Out(b.State())
  {
    var g := b.Gate(gate, y, bits);
    var sum := b.Add(x, g);
    out := b.Requant(sum, 0);
  }

  method NormMod(b: Builder, x: nat, scale: nat, shift: nat, n: Dims, dp: DerivedParams) returns (out: nat)
    modifies b
    ensures b.State() == NormModB(old(b.State()), x, scale, shift, n, dp) && out == Out(b.State())
  {
    var y := b.LnPerPos(x, n.s, n.d, dp.lnShift);
    out := b.Modulate(y, scale, shift, dp.modOne, dp.modBits);
  }

  method Adaln(b: Builder, c: nat, n: Dims, w: BlockWeights, bs: BlockShifts) returns (out: nat)
    modifies b
    ensures b.State() == AdalnB(old(b.State()), c, n, w, bs) && out == Out(b.State())
  {
    var siluC := b.Activation(c, TABLE_SILU);
    var adaln := b.BatchedLinear(siluC, w.adaln, n.s);
    out := b.Requant(adaln, bs.adaln);
  }

  method Chunk(b: Builder, adaln: nat, n: Dims, j: nat) returns (out: nat)
    modifies b
    ensures b.State() == ChunkB(old(b.State()), adaln, n, j) && out == Out(b.State())
  {
    out := b.ExtractCols(adaln, n.s, 6 * n.d, At(j, n.d, 0), n.d);
  }

  method ConditionalBlock(b: Builder, x: nat, c: nat, n: Dims, w: BlockWeights, dp: DerivedParams, bs: BlockShifts)
    returns (out: nat)
    modifies b
    ensures b.State() == ConditionalBlockB(old(b.State()), x, c, n, w, dp, bs) && out == Out(b.State())
  {
    var adaln := Adaln(b, c, n, w, bs);
    ghost var start := b.State();
    var shMsa := Chunk(b, adaln, n, 0);
    var scMsa := Chunk(b, adaln, n, 1);
    var gMsa := Chunk(b, adaln, n, 2);
    var shMlp := Chunk(b, adaln, n, 3);
    var scMlp := Chunk(b, adaln, n, 4);
    var gMlp := Chunk(b, adaln, n, 5);
    assert Chunks(b.State(), shMsa, scMsa, gMsa, shMlp, scMlp, gMlp) == ChunksB(start, adaln, n);
    var m1 := NormMod(b, x, scMsa, shMsa, n, dp);
    var a := Attn(b, m1, n, w, dp, bs);
    var x1 := Residual(b, x, gMsa, a, dp.gateMsaBits);
    var m2 := NormMod(b, x1, scMlp, shMlp, n, dp);
    var f := Ffn(b, m2, n, w, dp, bs);
    out := Residual(b, x1, gMlp, f, dp.gateMlpBits);
  }

  method RegisterWeights(b: Builder, n: Dims, qb: QuantBlock) returns (w: BlockWeights)
    requires BlockOk(n, qb)
    modifies b
    ensures b.State() == BlockWeightsB(old(b.State()), n, qb) && w == WeightIds(old(b.State()))
  {
    var adaln := b.Weight(6 * n.d, n.d, qb.adaln);
    var qkv := b.Weight(3 * n.Inner(), n.d, qb.qkv);
    var o := b.Weight(n.d, n.Inner(), qb.out);
    var fc1 := b.Weight(n.mlp, n.d, qb.fc1);
    var fc2 := b.Weight(n.d, n.mlp, qb.fc2);
    w := BlockWeights(adaln, qkv, o, fc1, fc2);
  }

  /** One iteration of the depth loop. */
  method AddBlock(b: Builder, x: nat, c: nat, n: Dims, qb: QuantBlock, dp: DerivedParams, bs: BlockShifts)
    returns (out: nat)
    requires BlockOk(n, qb)
    modifies b
    ensures Stage(b.State(), out) == BlockB(Stage(old(b.State()), x), c, n, qb, dp, bs)
  {
    var w := RegisterWeights(b, n, qb);
    out := ConditionalBlock(b, x, c, n, w, dp, bs);
  }

  method AddBlocks(b: Builder, x: nat, c: nat, n: Dims, qbs: seq<QuantBlock>, dp: DerivedParams) returns (out: nat)
    requires |qbs| == |dp.blocks| && forall j :: 0 <= j < |qbs| ==> BlockOk(n, qbs[j])
    modifies b
    ensures Stage(b.State(), out) == BlocksB(Stage(old(b.State()), x), c, n, qbs, dp, |qbs|)
  {
    hide BlockB;
    out := x;
    for i := 0 to |dp.blocks|
      invariant Stage(b.State(), out) == BlocksB(Stage(old(b.State()), x), c, n, qbs, dp, i)
    {
      out := AddBlock(b, out, c, n, qbs[i], dp, dp.blocks[i]);
    }
  }

  /** The compiler, in the order the source emits. */
  method BuildPredictorWith(n: Dims, xv: seq<int>, cv: seq<int>, qbs: seq<QuantBlock>, dp: DerivedParams)
    returns (r: PredictorCircuit)
    requires |qbs| == |dp.blocks| && forall j :: 0 <= j < |qbs| ==> BlockOk(n, qbs[j])
    ensures r == BuildPredictor(n, xv, cv, qbs, dp)
  {
    var b := new Builder();
    var x := b.Input(xv);
    var c := b.Input(cv);
    assert Stage(b.State(), x) == StartB(xv, cv);
    x := AddBlocks(b, x, c, n, qbs, dp);
    var out := b.LnPerPos(x, n.s, n.d, dp.lnShift);
    r := PredictorCircuit(Block(InputIds(b.inputs), b.ops, out), b.weights, b.inputs);
  }
}
