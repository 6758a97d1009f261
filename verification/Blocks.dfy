/** crates/pwm-core/src/block.rs: the named-buffer op list. */
module Blocks {
  import opened Wrappers
  import opened Bytes
  import opened Codec
  import opened Transcripts
  import opened Commitments
  import Merkle

  datatype BlockOp =
    | Linear(opId: nat, weightId: nat, biasId: Option<nat>, inBuf: nat, outBuf: nat, out: seq<int>)
    | Requant(opId: nat, inBuf: nat, outBuf: nat, out: seq<int>, shift: nat, zeroPoint: int, clampLo: int,
              clampHi: int, rounding: nat)
    | Activation(opId: nat, tableId: nat, inBuf: nat, outBuf: nat, out: seq<int>)
    | LayerNorm(opId: nat, tableId: nat, inBuf: nat, outBuf: nat, out: seq<int>, shift: nat, clampLo: int,
                clampHi: int, rounding: nat)
    | Modulate(opId: nat, xBuf: nat, scaleBuf: nat, shiftBuf: nat, outBuf: nat, out: seq<int>, one: int, shift: nat,
               clampLo: int, clampHi: int, rounding: nat)
    | Gate(opId: nat, gateBuf: nat, xBuf: nat, outBuf: nat, out: seq<int>, shift: nat, clampLo: int, clampHi: int,
           rounding: nat)
    | Add(opId: nat, aBuf: nat, bBuf: nat, outBuf: nat, out: seq<int>)
    | MatMul(opId: nat, aBuf: nat, bBuf: nat, outBuf: nat, out: seq<int>, rows: nat, inner: nat, cols: nat,
             transposeB: bool)
    | Softmax(opId: nat, tableId: nat, inBuf: nat, outBuf: nat, out: seq<int>, rowLen: nat, one: int)
    | Slice(opId: nat, inBuf: nat, outBuf: nat, start: nat, len: nat, out: seq<int>)
    | Concat(opId: nat, inBufs: seq<nat>, outBuf: nat, out: seq<int>)
    | BatchedLinear(opId: nat, weightId: nat, biasId: Option<nat>, inBuf: nat, outBuf: nat, out: seq<int>, seqLen: nat)
  {
    function SetOut(value: seq<int>): (op: BlockOp)
      ensures op.out == value && op.outBuf == outBuf && op.opId == opId
    {
      this.(out := value)
    }

    /** The static part: the op with its claimed output removed. */
    function Cleared(): BlockOp { SetOut([]) }
  }

  datatype Block = Block(inputBufs: seq<nat>, ops: seq<BlockOp>, outputBuf: nat)

  /** Every op with its claimed output removed. */
  function Skeleton(ops: seq<BlockOp>): (s: seq<BlockOp>)
    ensures |s| == |ops| && forall i :: 0 <= i < |ops| ==> s[i] == ops[i].Cleared()
  {
    seq(|ops|, i requires 0 <= i < |ops| => ops[i].Cleared())
  }

  lemma SkeletonSnoc(ops: seq<BlockOp>, op: BlockOp)
    ensures Skeleton(ops + [op]) == Skeleton(ops) + [op.Cleared()]
  {
  }

  lemma ClearedAfterSet(op: BlockOp, out: seq<int>)
    ensures op.SetOut(out).Cleared() == op.Cleared()
  {
  }

  lemma SkeletonFilled(ops: seq<BlockOp>, filled: seq<BlockOp>, op: BlockOp, out: seq<int>)
    requires Skeleton(filled) == Skeleton(ops)
    ensures Skeleton(filled + [op.SetOut(out)]) == Skeleton(ops + [op])
  {
    SkeletonSnoc(filled, op.SetOut(out));
    ClearedAfterSet(op, out);
    SkeletonSnoc(ops, op);
  }

  // ------------------------------------------------------------------ encoding

  const BLOCK_OP: Kind := Variant([
    Record([U32, U32, Optional(U32), U32, U32, I64S]),
    Record([U32, U32, U32, I64S, Shift, I64, I64, I64, U8]),
    Record([U32, U32, U32, U32, I64S]),
    Record([U32, U32, U32, U32, I64S, Shift, I64, I64, U8]),
    Record([U32, U32, U32, U32, U32, I64S, I64, Shift, I64, I64, U8]),
    Record([U32, U32, U32, U32, I64S, Shift, I64, I64, U8]),
    Record([U32, U32, U32, U32, I64S]),
    Record([U32, U32, U32, U32, I64S, U32, U32, U32, Bool]),
    Record([U32, U32, U32, U32, I64S, U32, I64]),
    Record([U32, U32, U32, U32, U32, I64S]),
    Record([U32, Vector(U32), U32, I64S]),
    Record([U32, U32, Optional(U32), U32, U32, I64S, U32])
  ])

  /** The fields in encoding order, under the op's tag. */
  function OpValue(op: BlockOp): Value {
    match op
    case Linear(id, w, b, i, o, out) =>
      Case(0, List([Int(id), Int(w), OptNat(b), Int(i), Int(o), Ints(out)]))
    case Requant(id, i, o, out, s, z, lo, hi, r) =>
      Case(1, List([Int(id), Int(i), Int(o), Ints(out), Int(s), Int(z), Int(lo), Int(hi), Int(r)]))
    case Activation(id, t, i, o, out) =>
      Case(2, List([Int(id), Int(t), Int(i), Int(o), Ints(out)]))
    case LayerNorm(id, t, i, o, out, s, lo, hi, r) =>
      Case(3, List([Int(id), Int(t), Int(i), Int(o), Ints(out), Int(s), Int(lo), Int(hi), Int(r)]))
    case Modulate(id, x, sc, sh, o, out, one, s, lo, hi, r) =>
      Case(4, List([Int(id), Int(x), Int(sc), Int(sh), Int(o), Ints(out), Int(one), Int(s), Int(lo), Int(hi), Int(r)]))
    case Gate(id, g, x, o, out, s, lo, hi, r) =>
      Case(5, List([Int(id), Int(g), Int(x), Int(o), Ints(out), Int(s), Int(lo), Int(hi), Int(r)]))
    case Add(id, a, b, o, out) =>
      Case(6, List([Int(id), Int(a), Int(b), Int(o), Ints(out)]))
    case MatMul(id, a, b, o, out, rows, inner, cols, t) =>
      Case(7, List([Int(id), Int(a), Int(b), Int(o), Ints(out), Int(rows), Int(inner), Int(cols), Flag(t)]))
    case Softmax(id, t, i, o, out, n, one) =>
      Case(8, List([Int(id), Int(t), Int(i), Int(o), Ints(out), Int(n), Int(one)]))
    case Slice(id, i, o, start, len, out) =>
      Case(9, List([Int(id), Int(i), Int(o), Int(start), Int(len), Ints(out)]))
    case Concat(id, ins, o, out) =>
      Case(10, List([Int(id), Ints(ins), Int(o), Ints(out)]))
    case BatchedLinear(id, w, b, i, o, out, s) =>
      Case(11, List([Int(id), Int(w), OptNat(b), Int(i), Int(o), Ints(out), Int(s)]))
  }

  /** Every field lies in the range of its machine type. */
  predicate OpFits(op: BlockOp) {
    Typed(BLOCK_OP, OpValue(op))
  }

  function LeafInput(op: BlockOp): seq<Byte> {
    Tag("pwm.bleaf.v1") + Enc(BLOCK_OP, OpValue(op))
  }

  function Leaf(h: HashFn, op: BlockOp): Digest {
    h(LeafInput(op))
  }

  function Leaves(h: HashFn, ops: seq<BlockOp>): (l: seq<Digest>)
    ensures |l| == |ops|
  {
    seq(|ops|, i requires 0 <= i < |ops| => Leaf(h, ops[i]))
  }

  function NodeTag(): seq<Byte> { Tag("pwm.bnode.v1") }

  function BlockRoot(h: HashFn, ops: seq<BlockOp>): Digest {
    Merkle.Root(h, NodeTag(), Leaves(h, ops))
  }

  // -------------------------------------------------------------- the transcript

  type Inputs = seq<(nat, seq<int>)>

  /** The values of one input buffer, 8 bytes each. */
  function ValueBytes(v: seq<int>): seq<Byte> {
    if |v| == 0 then [] else ValueBytes(v[..|v| - 1]) + LE(v[|v| - 1], 8)
  }

  /** Two absorbs per seeded input, in order. */
  function InputEntries(inputs: Inputs): seq<Entry> {
    if |inputs| == 0 then []
    else
      var (id, v) := inputs[|inputs| - 1];
      InputEntries(inputs[..|inputs| - 1])
        + [Entry(Ascii("in_buf"), LE(id, 8)), Entry(Ascii("in_vals"), ValueBytes(v))]
  }

  /** The absorbs of the block witness: the root, then every input. */
  function WitnessEntries(h: HashFn, ops: seq<BlockOp>, inputs: Inputs): seq<Entry> {
    [Entry(Ascii("block_root"), BlockRoot(h, ops))] + InputEntries(inputs)
  }

  method AbsorbBlockWitness(t: Transcript, block: Block, inputs: Inputs)
    modifies t
    ensures t.state == AbsorbAll(t.h, old(t.state), WitnessEntries(t.h, block.ops, inputs))
  {
    var start := t.state;
    var root := Merkle.ComputeRoot(t.h, NodeTag(), Leaves(t.h, block.ops));
    t.Absorb(Ascii("block_root"), root);
    ghost var head := [Entry(Ascii("block_root"), root)];
    assert head[..0] == [];
    for i := 0 to |inputs|
      invariant t.state == AbsorbAll(t.h, start, head + InputEntries(inputs[..i]))
    {
      var (id, v) := inputs[i];
      t.Absorb(Ascii("in_buf"), LE(id, 8));
      var bytes: seq<Byte> := [];
      for j := 0 to |v|
        invariant bytes == ValueBytes(v[..j])
        invariant t.state == AbsorbState(t.h, AbsorbAll(t.h, start, head + InputEntries(inputs[..i])),
                                         Ascii("in_buf"), LE(id, 8))
      {
        assert v[..j + 1][..j] == v[..j];
        bytes := bytes + LE(v[j], 8);
      }
      assert v[..|v|] == v;
      t.Absorb(Ascii("in_vals"), bytes);
      TwoMoreEntries(t.h, start, head, inputs, i);
    }
    assert inputs[..|inputs|] == inputs;
  }

  lemma TwoMoreEntries(h: HashFn, start: Digest, head: seq<Entry>, inputs: Inputs, i: nat)
    requires i < |inputs|
    ensures var (id, v) := inputs[i];
            AbsorbAll(h, start, head + InputEntries(inputs[..i + 1]))
            == AbsorbState(h, AbsorbState(h, AbsorbAll(h, start, head + InputEntries(inputs[..i])), Ascii("in_buf"),
                                          LE(id, 8)),
                           Ascii("in_vals"), ValueBytes(v))
  {
    var (id, v) := inputs[i];
    var before := head + InputEntries(inputs[..i]);
    var a, b := Entry(Ascii("in_buf"), LE(id, 8)), Entry(Ascii("in_vals"), ValueBytes(v));
    assert inputs[..i + 1][..i] == inputs[..i];
    assert head + InputEntries(inputs[..i + 1]) == (before + [a]) + [b];
    assert ((before + [a]) + [b])[..|before| + 1] == before + [a];
    assert (before + [a])[..|before|] == before;
  }
}
