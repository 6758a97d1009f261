/** crates/pwm-core/src/graph.rs and trace.rs: the committed op list and the execution trace. */
module Traces {
  import opened Wrappers
  import opened Bytes
  import opened Codec
  import opened Transcripts
  import opened Commitments
  import Merkle

  /** One static op: kinds, ids, dimensions, parameters. */
  datatype OpSpec =
    | LinearSpec(opId: nat, weightId: nat, biasId: Option<nat>, rows: nat, cols: nat)
    | RequantSpec(opId: nat, shift: nat, zeroPoint: int, clampLo: int, clampHi: int, rounding: nat)
    | ActivationSpec(opId: nat, tableId: nat)
    | LayerNormSpec(opId: nat, tableId: nat, shift: nat, clampLo: int, clampHi: int, rounding: nat)

  /** One executed op: the same, with its claimed input and output. */
  datatype OpRecord =
    | LinearRec(opId: nat, weightId: nat, biasId: Option<nat>, input: seq<int>, output: seq<int>)
    | RequantRec(opId: nat, input: seq<int>, output: seq<int>, shift: nat, zeroPoint: int, clampLo: int, clampHi: int,
                 rounding: nat)
    | ActivationRec(opId: nat, tableId: nat, input: seq<int>, output: seq<int>)
    | LayerNormRec(opId: nat, tableId: nat, input: seq<int>, output: seq<int>, shift: nat, clampLo: int, clampHi: int,
                   rounding: nat)

  const OP_SPEC: Kind := Variant([
    Record([U32, U32, Optional(U32), U32, U32]),
    Record([U32, Shift, I64, I64, I64, U8]),
    Record([U32, U32]),
    Record([U32, U32, Shift, I64, I64, U8])
  ])

  const OP_RECORD: Kind := Variant([
    Record([U32, U32, Optional(U32), I64S, I64S]),
    Record([U32, I64S, I64S, Shift, I64, I64, I64, U8]),
    Record([U32, U32, I64S, I64S]),
    Record([U32, U32, I64S, I64S, Shift, I64, I64, U8])
  ])

  function SpecValue(s: OpSpec): Value {
    match s
    case LinearSpec(id, w, b, rows, cols) => Case(0, List([Int(id), Int(w), OptNat(b), Int(rows), Int(cols)]))
    case RequantSpec(id, s, z, lo, hi, r) => Case(1, List([Int(id), Int(s), Int(z), Int(lo), Int(hi), Int(r)]))
    case ActivationSpec(id, t) => Case(2, List([Int(id), Int(t)]))
    case LayerNormSpec(id, t, s, lo, hi, r) => Case(3, List([Int(id), Int(t), Int(s), Int(lo), Int(hi), Int(r)]))
  }

  function RecordValue(r: OpRecord): Value {
    match r
    case LinearRec(id, w, b, x, y) => Case(0, List([Int(id), Int(w), OptNat(b), Ints(x), Ints(y)]))
    case RequantRec(id, x, y, s, z, lo, hi, m) =>
      Case(1, List([Int(id), Ints(x), Ints(y), Int(s), Int(z), Int(lo), Int(hi), Int(m)]))
    case ActivationRec(id, t, x, y) => Case(2, List([Int(id), Int(t), Ints(x), Ints(y)]))
    case LayerNormRec(id, t, x, y, s, lo, hi, m) =>
      Case(3, List([Int(id), Int(t), Ints(x), Ints(y), Int(s), Int(lo), Int(hi), Int(m)]))
  }

  function GraphValue(ops: seq<OpSpec>): Value {
    List(seq(|ops|, i requires 0 <= i < |ops| => SpecValue(ops[i])))
  }

  /** The architecture commitment of the op graph. */
  function GraphCommitment(h: HashFn, ops: seq<OpSpec>): Digest {
    Commit(h, Tag("pwm.graph.v1"), Enc(Vector(OP_SPEC), GraphValue(ops)))
  }

  function RecordLeaf(h: HashFn, r: OpRecord): Digest {
    h(Tag("pwm.tleaf.v1") + Enc(OP_RECORD, RecordValue(r)))
  }

  function TraceLeaves(h: HashFn, trace: seq<OpRecord>): (l: seq<Digest>)
    ensures |l| == |trace|
  {
    seq(|trace|, i requires 0 <= i < |trace| => RecordLeaf(h, trace[i]))
  }

  function TraceRoot(h: HashFn, trace: seq<OpRecord>): Digest {
    Merkle.Root(h, Tag("pwm.tnode.v1"), TraceLeaves(h, trace))
  }
}
