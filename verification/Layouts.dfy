/**
 * crates/pwm-core: the bytes of every hashed value, written out field by field as the
 * `encode` impls push them, against the generic codec that the binding results use.
 */
module Layouts {
  import opened Wrappers
  import opened Arith
  import opened Bytes
  import opened Codec
  import opened Transcripts
  import opened Commitments
  import opened Blocks
  import opened Traces
  import opened Tensors
  import opened Kernels
  import FixedPoint

  // ----------------------------------------------------------------------- the pieces

  function Cat(parts: seq<seq<Byte>>): seq<Byte> {
    if |parts| == 0 then [] else parts[0] + Cat(parts[1..])
  }

  lemma CatCons(parts: seq<seq<Byte>>)
    requires |parts| > 0
    ensures Cat(parts) == parts[0] + Cat(parts[1..])
  {
  }

  function Byte1(x: int): seq<Byte> { LE(x, 1) }
  function Word32(x: int): seq<Byte> { LE(x, 4) }
  function Word64(x: int): seq<Byte> { LE(x, 8) }

  /** Integers of one width, end to end. */
  function Words(xs: seq<int>, width: nat): seq<Byte> {
    if |xs| == 0 then [] else LE(xs[0], width) + Words(xs[1..], width)
  }

  function Longs(xs: seq<int>): seq<Byte> { Word32(|xs|) + Words(xs, 8) }
  function Shorts(xs: seq<int>): seq<Byte> { Word32(|xs|) + Words(xs, 4) }

  function MaybeWord32(x: Option<nat>): seq<Byte> {
    if x.Some? then [1] + Word32(x.value) else [0]
  }

  /** The encodings of a list of values, end to end. */
  lemma {:induction false} FieldsAre(ks: seq<Kind>, vs: seq<Value>, parts: seq<seq<Byte>>)
    requires |ks| == |vs| == |parts| && forall i :: 0 <= i < |ks| ==> Enc(ks[i], vs[i]) == parts[i]
    ensures EncFields(ks, vs) == Cat(parts)
  {
    hide Enc;
    if |ks| > 0 { FieldsAre(ks[1..], vs[1..], parts[1..]); }
  }

  lemma {:induction false} IntsAre(k: Kind, xs: seq<int>, vs: seq<Value>)
    requires IsInt(k) && |vs| == |xs| && forall i :: 0 <= i < |xs| ==> vs[i] == Int(xs[i])
    ensures EncItems(k, vs) == Words(xs, Width(k))
  {
    if |xs| > 0 {
      assert Enc(k, vs[0]) == LE(xs[0], Width(k));
      IntsAre(k, xs[1..], vs[1..]);
    }
  }

  lemma IntIs(k: Kind, x: int)
    requires IsInt(k)
    ensures Enc(k, Int(x)) == LE(x, Width(k))
  {
  }

  lemma OptionIs(x: Option<nat>)
    ensures Enc(Optional(U32), OptNat(x)) == MaybeWord32(x)
  {
    if x.Some? { IntIs(U32, x.value); }
  }

  lemma ListIs(item: Kind, vs: seq<Value>)
    ensures Enc(Vector(item), List(vs)) == Word32(|vs|) + EncItems(item, vs)
  {
    hide EncItems, LE;
  }

  lemma VectorIs(k: Kind, xs: seq<int>)
    requires IsInt(k)
    ensures Enc(Vector(k), Ints(xs)) == Word32(|xs|) + Words(xs, Width(k))
  {
    hide Enc, EncItems;
    ListIs(k, Ints(xs).items);
    IntsAre(k, xs, Ints(xs).items);
  }

  lemma VectorsAre(xs: seq<int>)
    ensures Enc(I64S, Ints(xs)) == Longs(xs)
    ensures Enc(Vector(U32), Ints(xs)) == Enc(Vector(M31), Ints(xs)) == Shorts(xs)
  {
    hide Enc, Words;
    VectorIs(I64, xs);
    VectorIs(U32, xs);
    VectorIs(M31, xs);
  }

  /** The field kinds of an op, whatever their values. */
  lemma FieldsEncode()
    ensures forall x: int :: Enc(U8, Int(x)) == Byte1(x)
    ensures forall x: int :: Enc(U32, Int(x)) == Word32(x)
    ensures forall x: int :: Enc(I64, Int(x)) == Word64(x)
    ensures forall x: int :: Enc(Shift, Int(x)) == Word64(x)
    ensures forall b: bool :: Enc(Bool, Flag(b)) == [if b then 1 else 0]
  {
    forall x: int ensures Enc(U8, Int(x)) == Byte1(x) { IntIs(U8, x); }
    forall x: int ensures Enc(U32, Int(x)) == Word32(x) { IntIs(U32, x); }
    forall x: int ensures Enc(I64, Int(x)) == Word64(x) { IntIs(I64, x); }
    forall x: int ensures Enc(Shift, Int(x)) == Word64(x) { IntIs(Shift, x); }
    forall b: bool ensures Enc(Bool, Flag(b)) == [if b then 1 else 0] {}
  }

  lemma RecordIs(ks: seq<Kind>, vs: seq<Value>)
    ensures Enc(Record(ks), List(vs)) == EncFields(ks, vs)
  {
    hide EncFields;
  }

  lemma CaseIs(cases: seq<Kind>, tag: nat, v: Value)
    requires tag < |cases| && tag < 256
    ensures Enc(Variant(cases), Case(tag, v)) == [tag] + Enc(cases[tag], v)
  {
    hide EncFields, EncItems, LE;
  }

  /** A tagged record: the tag, then its fields. */
  lemma VariantIs(cases: seq<Kind>, tag: nat, ks: seq<Kind>, vs: seq<Value>, parts: seq<seq<Byte>>)
    requires tag < |cases| && tag < 256 && cases[tag] == Record(ks)
    requires |ks| == |vs| == |parts|
    requires forall i :: 0 <= i < |vs| ==> Enc(ks[i], vs[i]) == parts[i]
    ensures Enc(Variant(cases), Case(tag, List(vs))) == [tag] + Cat(parts)
  {
    hide Enc;
    CaseIs(cases, tag, List(vs));
    RecordIs(ks, vs);
    FieldsAre(ks, vs, parts);
  }

  // ------------------------------------------------------------------------ block ops

  /** The tag, then the fields in the order the encoder pushes them. */
  function OpParts(op: BlockOp): seq<seq<Byte>> {
    match op
    case Linear(id, w, b, i, o, out) => [[0], Word32(id), Word32(w), MaybeWord32(b), Word32(i), Word32(o), Longs(out)]
    case Requant(id, i, o, out, s, z, lo, hi, r) =>
      [[1], Word32(id), Word32(i), Word32(o), Longs(out), Word64(s), Word64(z), Word64(lo), Word64(hi), Byte1(r)]
    case Activation(id, t, i, o, out) => [[2], Word32(id), Word32(t), Word32(i), Word32(o), Longs(out)]
    case LayerNorm(id, t, i, o, out, s, lo, hi, r) =>
      [[3], Word32(id), Word32(t), Word32(i), Word32(o), Longs(out), Word64(s), Word64(lo), Word64(hi), Byte1(r)]
    case Modulate(id, x, scale, shift, o, out, one, s, lo, hi, r) =>
      [[4], Word32(id), Word32(x), Word32(scale), Word32(shift), Word32(o), Longs(out), Word64(one), Word64(s),
       Word64(lo), Word64(hi), Byte1(r)]
    case Gate(id, g, x, o, out, s, lo, hi, r) =>
      [[5], Word32(id), Word32(g), Word32(x), Word32(o), Longs(out), Word64(s), Word64(lo), Word64(hi), Byte1(r)]
    case Add(id, a, b, o, out) => [[6], Word32(id), Word32(a), Word32(b), Word32(o), Longs(out)]
    case MatMul(id, a, b, o, out, rows, inner, cols, t) =>
      [[7], Word32(id), Word32(a), Word32(b), Word32(o), Longs(out), Word32(rows), Word32(inner), Word32(cols),
       [if t then 1 else 0]]
    case Softmax(id, t, i, o, out, n, one) =>
      [[8], Word32(id), Word32(t), Word32(i), Word32(o), Longs(out), Word32(n), Word64(one)]
    case Slice(id, i, o, start, len, out) =>
      [[9], Word32(id), Word32(i), Word32(o), Word32(start), Word32(len), Longs(out)]
    case Concat(id, ins, o, out) => [[10], Word32(id), Shorts(ins), Word32(o), Longs(out)]
    case BatchedLinear(id, w, b, i, o, out, n) =>
      [[11], Word32(id), Word32(w), MaybeWord32(b), Word32(i), Word32(o), Longs(out), Word32(n)]
  }

  /** Field by field, the op's values encode to its parts. */
  ghost predicate FieldsMatch(op: BlockOp) {
    hide Enc, Ints, OptNat, Longs, Shorts, Word32, Word64, Byte1;
    var tag, items, parts := OpValue(op).tag, OpValue(op).payload.items, OpParts(op);
    && tag < |BLOCK_OP.cases| && BLOCK_OP.cases[tag].Record? && parts[0] == [tag]
    && |BLOCK_OP.cases[tag].fields| == |items| == |parts| - 1
    && forall i :: 0 <= i < |items| ==> Enc(BLOCK_OP.cases[tag].fields[i], items[i]) == parts[i + 1]
  }

  lemma NeuralFields(op: BlockOp)
    requires op.Linear? || op.Requant? || op.Activation? || op.LayerNorm?
    ensures FieldsMatch(op)
  {
    hide Enc, Cat, Longs, Shorts, Word32, Word64, Byte1, Ints, OptNat, MaybeWord32;
    VectorsAre(op.out);
    FieldsEncode();
    if op.Linear? { OptionIs(op.biasId); }
  }

  lemma ArithmeticFields(op: BlockOp)
    requires op.Modulate? || op.Gate? || op.Add? || op.MatMul?
    ensures FieldsMatch(op)
  {
    hide Enc, Cat, Longs, Shorts, Word32, Word64, Byte1, Ints, OptNat, MaybeWord32;
    VectorsAre(op.out);
    FieldsEncode();
  }

  lemma WiringFields(op: BlockOp)
    requires op.Softmax? || op.Slice? || op.Concat? || op.BatchedLinear?
    ensures FieldsMatch(op)
  {
    hide Enc, Cat, Longs, Shorts, Word32, Word64, Byte1, Ints, OptNat, MaybeWord32;
    VectorsAre(op.out);
    FieldsEncode();
    if op.BatchedLinear? { OptionIs(op.biasId); }
    if op.Concat? { VectorsAre(op.inBufs); }
  }

  lemma OpLayout(op: BlockOp)
    ensures Enc(BLOCK_OP, OpValue(op)) == Cat(OpParts(op))
  {
    hide Enc, Cat, OpParts, Longs, Shorts, Word32, Word64, Byte1;
    if op.Linear? || op.Requant? || op.Activation? || op.LayerNorm? { NeuralFields(op); }
    else if op.Modulate? || op.Gate? || op.Add? || op.MatMul? { ArithmeticFields(op); }
    else { WiringFields(op); }
    var tag := OpValue(op).tag;
    VariantIs(BLOCK_OP.cases, tag, BLOCK_OP.cases[tag].fields, OpValue(op).payload.items, OpParts(op)[1..]);
    CatCons(OpParts(op));
  }

  // --------------------------------------------------------------- specs and records

  function SpecParts(spec: OpSpec): seq<seq<Byte>> {
    match spec
    case LinearSpec(id, w, b, rows, cols) =>
      [[0], Word32(id), Word32(w), MaybeWord32(b), Word32(rows), Word32(cols)]
    case RequantSpec(id, s, z, lo, hi, r) =>
      [[1], Word32(id), Word64(s), Word64(z), Word64(lo), Word64(hi), Byte1(r)]
    case ActivationSpec(id, t) => [[2], Word32(id), Word32(t)]
    case LayerNormSpec(id, t, s, lo, hi, r) =>
      [[3], Word32(id), Word32(t), Word64(s), Word64(lo), Word64(hi), Byte1(r)]
  }

  lemma SpecFields(spec: OpSpec)
    ensures var tag, items, parts := SpecValue(spec).tag, SpecValue(spec).payload.items, SpecParts(spec);
            && tag < |OP_SPEC.cases| && OP_SPEC.cases[tag].Record? && parts[0] == [tag]
            && |OP_SPEC.cases[tag].fields| == |items| == |parts| - 1
            && forall i :: 0 <= i < |items| ==> Enc(OP_SPEC.cases[tag].fields[i], items[i]) == parts[i + 1]
  {
    hide Enc, Cat, Word32, Word64, Byte1, MaybeWord32, OptNat;
    FieldsEncode();
    if spec.LinearSpec? { OptionIs(spec.biasId); }
  }

  lemma SpecLayout(spec: OpSpec)
    ensures Enc(OP_SPEC, SpecValue(spec)) == Cat(SpecParts(spec))
  {
    hide Enc, Cat, SpecParts, Word32, Word64, Byte1;
    SpecFields(spec);
    var tag := SpecValue(spec).tag;
    VariantIs(OP_SPEC.cases, tag, OP_SPEC.cases[tag].fields, SpecValue(spec).payload.items, SpecParts(spec)[1..]);
    CatCons(SpecParts(spec));
  }

  function RecordParts(rec: OpRecord): seq<seq<Byte>> {
    match rec
    case LinearRec(id, w, b, x, y) => [[0], Word32(id), Word32(w), MaybeWord32(b), Longs(x), Longs(y)]
    case RequantRec(id, x, y, s, z, lo, hi, r) =>
      [[1], Word32(id), Longs(x), Longs(y), Word64(s), Word64(z), Word64(lo), Word64(hi), Byte1(r)]
    case ActivationRec(id, t, x, y) => [[2], Word32(id), Word32(t), Longs(x), Longs(y)]
    case LayerNormRec(id, t, x, y, s, lo, hi, r) =>
      [[3], Word32(id), Word32(t), Longs(x), Longs(y), Word64(s), Word64(lo), Word64(hi), Byte1(r)]
  }

  lemma RecordFields(rec: OpRecord)
    ensures var tag, items, parts := RecordValue(rec).tag, RecordValue(rec).payload.items, RecordParts(rec);
            && tag < |OP_RECORD.cases| && OP_RECORD.cases[tag].Record? && parts[0] == [tag]
            && |OP_RECORD.cases[tag].fields| == |items| == |parts| - 1
            && forall i :: 0 <= i < |items| ==> Enc(OP_RECORD.cases[tag].fields[i], items[i]) == parts[i + 1]
  {
    hide Enc, Cat, Longs, Shorts, Word32, Word64, Byte1, MaybeWord32, OptNat, Ints;
    FieldsEncode();
    VectorsAre(rec.input);
    VectorsAre(rec.output);
    if rec.LinearRec? { OptionIs(rec.biasId); }
  }

  lemma RecordLayout(rec: OpRecord)
    ensures Enc(OP_RECORD, RecordValue(rec)) == Cat(RecordParts(rec))
  {
    hide Enc, Cat, RecordParts, Longs, Shorts, Word32, Word64, Byte1;
    RecordFields(rec);
    var tag := RecordValue(rec).tag;
    VariantIs(OP_RECORD.cases, tag, OP_RECORD.cases[tag].fields, RecordValue(rec).payload.items, RecordParts(rec)[1..]);
    CatCons(RecordParts(rec));
  }

  // ------------------------------------------------------- tensors, tables and scales

  function Cells(data: seq<FixedPoint.BoundedInt>): seq<Byte> {
    if |data| == 0 then []
    else Word64(data[0].value) + (Word64(data[0].lo) + Word64(data[0].hi)) + Cells(data[1..])
  }

  lemma CheckedIs(raw: Kind, test: Test, v: Value)
    ensures Enc(Checked(raw, test), v) == Enc(raw, v)
  {
  }

  lemma CellLayout(b: FixedPoint.BoundedInt)
    ensures Enc(BOUNDED_INT, BoundedValue(b)) == Word64(b.value) + (Word64(b.lo) + Word64(b.hi))
  {
    hide Enc;
    FieldsEncode();
    var parts := [Word64(b.value), Word64(b.lo), Word64(b.hi)];
    CheckedIs(BOUNDED_INT.raw, IsBoundedInt, BoundedValue(b));
    RecordIs([I64, I64, I64], BoundedValue(b).items);
    FieldsAre([I64, I64, I64], BoundedValue(b).items, parts);
    assert parts[1..] == [Word64(b.lo), Word64(b.hi)] && [Word64(b.lo), Word64(b.hi)][1..] == [Word64(b.hi)];
  }

  lemma {:induction false} CellsLayout(data: seq<FixedPoint.BoundedInt>, vs: seq<Value>)
    requires |vs| == |data| && forall i :: 0 <= i < |data| ==> vs[i] == BoundedValue(data[i])
    ensures EncItems(BOUNDED_INT, vs) == Cells(data)
  {
    hide Enc, Word64, BoundedValue;
    if |data| > 0 {
      CellLayout(data[0]);
      CellsLayout(data[1..], vs[1..]);
    }
  }

  /** A tensor: id, scale id, shape, cells. */
  lemma TensorLayout(t: TensorT)
    ensures Enc(TENSOR, TensorValue(t))
            == Cat([Word32(t.tensorId), Word32(t.scaleId), Shorts(t.shape), Word32(|t.data|) + Cells(t.data)])
  {
    hide Enc, EncItems, Cat, Cells, Word32, Word64, Byte1, Shorts, Longs, Ints, BoundedValue;
    FieldsEncode();
    VectorsAre(t.shape);
    var items := TensorValue(t).items;
    ListIs(BOUNDED_INT, items[3].items);
    CellsLayout(t.data, items[3].items);
    CheckedIs(TENSOR.raw, IsTensor, TensorValue(t));
    RecordIs(TENSOR.raw.fields, items);
    FieldsAre(TENSOR.raw.fields, items,
              [Word32(t.tensorId), Word32(t.scaleId), Shorts(t.shape), Word32(|t.data|) + Cells(t.data)]);
  }

  lemma TableLayout(t: ActivationTable)
    ensures Enc(TABLE, TableValue(t)) == Cat([Word32(t.tableId), Word64(t.lo), Longs(t.outputs)])
  {
    hide Enc, Cat, Word32, Word64, Longs, Shorts;
    FieldsEncode();
    VectorsAre(t.outputs);
    RecordIs(TABLE.fields, TableValue(t).items);
    FieldsAre(TABLE.fields, TableValue(t).items, [Word32(t.tableId), Word64(t.lo), Longs(t.outputs)]);
  }

  lemma ScaleLayout(s: Scale)
    ensures Enc(SCALE, ScaleValue(s)) == Cat([Word32(s.scaleId), Word32(s.log2), Byte1(s.dtype)])
  {
    hide Enc, Cat, LE;
    FieldsEncode();
    IntIs(I32, s.log2);
    IntIs(Discriminant(3), s.dtype);
    RecordIs(SCALE.fields, ScaleValue(s).items);
    FieldsAre(SCALE.fields, ScaleValue(s).items, [Word32(s.scaleId), Word32(s.log2), Byte1(s.dtype)]);
  }

  lemma {:induction false} TypedField(ks: seq<Kind>, vs: seq<Value>, i: nat)
    requires TypedFields(ks, vs) && i < |ks|
    ensures |vs| == |ks| && Typed(ks[i], vs[i])
  {
    hide Typed;
    FieldCount(ks, vs);
    if i > 0 { TypedField(ks[1..], vs[1..], i - 1); }
  }

  lemma {:induction false} FieldCount(ks: seq<Kind>, vs: seq<Value>)
    requires TypedFields(ks, vs)
    ensures |vs| == |ks|
  {
    hide Typed;
    if |ks| > 0 { FieldCount(ks[1..], vs[1..]); }
  }

  /** A decoded cell obeys the invariant of the constructor. */
  lemma TypedCell(v: Value) returns (b: FixedPoint.BoundedInt)
    requires Typed(BOUNDED_INT, v)
    ensures BoundedValue(b) == v && b.Valid()
  {
    b := FixedPoint.BoundedInt(v.items[0].x, v.items[1].x, v.items[2].x);
    assert v.items == [v.items[0], v.items[1], v.items[2]];
  }

  lemma {:induction false} SameProduct(dims: seq<nat>, vs: seq<Value>)
    requires |vs| == |dims| && forall i :: 0 <= i < |dims| ==> vs[i] == Int(dims[i])
    ensures Tensors.CheckedProduct(dims) == Codec.CheckedProduct(vs)
  {
    if |dims| > 0 { SameProduct(dims[..|dims| - 1], vs[..|vs| - 1]); }
  }

  lemma TypedParts(v: Value)
    requires Typed(TENSOR, v)
    ensures Check(IsTensor, v).Ok? && |v.items| == 4
    ensures v.items[0].Int? && v.items[0].x >= 0 && v.items[1].Int? && v.items[1].x >= 0
    ensures v.items[2].List? && TypedItems(U32, v.items[2].items)
    ensures v.items[3].List? && TypedItems(BOUNDED_INT, v.items[3].items)
  {
    hide TypedItems, TypedFields;
    var ks := TENSOR.raw.fields;
    TypedField(ks, v.items, 0);
    TypedField(ks, v.items, 1);
    TypedField(ks, v.items, 2);
    TypedField(ks, v.items, 3);
  }

  lemma {:induction false} TypedDims(vs: seq<Value>) returns (dims: seq<nat>)
    requires TypedItems(U32, vs)
    ensures |dims| == |vs| && forall i :: 0 <= i < |vs| ==> vs[i] == Int(dims[i])
  {
    if |vs| == 0 {
      dims := [];
    } else {
      var rest := TypedDims(vs[1..]);
      dims := [vs[0].x] + rest;
    }
  }

  lemma {:induction false} TypedCells(vs: seq<Value>) returns (cells: seq<FixedPoint.BoundedInt>)
    requires TypedItems(BOUNDED_INT, vs)
    ensures |cells| == |vs| && forall i :: 0 <= i < |vs| ==> cells[i].Valid() && BoundedValue(cells[i]) == vs[i]
  {
    hide Typed, BoundedValue;
    if |vs| == 0 {
      cells := [];
    } else {
      var b := TypedCell(vs[0]);
      var rest := TypedCells(vs[1..]);
      cells := [b] + rest;
    }
  }

  /**
   * Every value the codec accepts as a tensor is one that the tensor constructor accepts:
   * rank, element count without overflow, and cells inside their bounds.
   */
  lemma TypedTensor(v: Value) returns (t: TensorT)
    requires Typed(TENSOR, v)
    ensures TensorValue(t) == v
  {
    hide Typed, TypedItems, TypedFields, BoundedValue;
    TypedParts(v);
    var dims := TypedDims(v.items[2].items);
    var cells := TypedCells(v.items[3].items);
    SameProduct(dims, v.items[2].items);
    t := Tensor(v.items[0].x, dims, v.items[1].x, cells);
    var items := TensorValue(t).items;
    assert items[2].items == v.items[2].items;
    assert items[3].items == v.items[3].items;
    assert items == [v.items[0], v.items[1], v.items[2], v.items[3]];
    assert items == v.items;
  }

  // ---------------------------------------------------- bindings and the public input

  /** Architecture, weights, and two versions, both 1. */
  lemma ModelLayout(architecture: Digest, root: Digest)
    ensures Enc(MODEL_BINDING, ModelValue(architecture, root)) == Cat([architecture, root, [1, 0, 0, 0], [1, 0, 0, 0]])
  {
    hide Enc, Cat;
    FieldsEncode();
    OneWord();
    BitsAre(architecture);
    BitsAre(root);
    RecordIs(MODEL_BINDING.fields, ModelValue(architecture, root).items);
    FieldsAre(MODEL_BINDING.fields, ModelValue(architecture, root).items,
              [architecture, root, [1, 0, 0, 0], [1, 0, 0, 0]]);
  }

  /** The planner sentinel commits to four zero words. */
  lemma PlannerLayout(h: HashFn)
    ensures PlannerSentinel(h) == Commit(h, Tag("pwm.plan.v1"), Zero(16))
  {
    hide Enc, Cat, Commit, Tag;
    var zeros := [Int(0), Int(0), Int(0), Int(0)];
    var word: seq<Byte> := [0, 0, 0, 0];
    IntIs(U32, 0);
    ZeroWord();
    RecordIs(PLANNER_BINDING.fields, zeros);
    FieldsAre(PLANNER_BINDING.fields, zeros, [word, word, word, word]);
    FourParts(word, word, word, word);
    assert word + (word + (word + word)) == Zero(16);
  }

  lemma FourParts(a: seq<Byte>, b: seq<Byte>, c: seq<Byte>, d: seq<Byte>)
    ensures Cat([a, b, c, d]) == a + (b + (c + d))
  {
    CatCons([a, b, c, d]);
    CatCons([b, c, d]);
    CatCons([c, d]);
    CatCons([d]);
    assert [a, b, c, d][1..] == [b, c, d] && [b, c, d][1..] == [c, d] && [c, d][1..] == [d];
  }

  lemma ZeroWord()
    ensures Word32(0) == [0, 0, 0, 0]
  {
    assert LE(0, 1) == [0] + LE(0, 0) == [0];
    assert LE(0, 2) == [0] + LE(0, 1) == [0, 0];
    assert LE(0, 3) == [0] + LE(0, 2) == [0, 0, 0];
  }

  lemma BitsAre(d: Digest)
    ensures Enc(Hash32, Bits(d)) == d
  {
  }

  lemma OneWord()
    ensures Word32(1) == [1, 0, 0, 0]
  {
    assert LE(0, 1) == [0] + LE(0, 0) == [0];
    assert LE(0, 2) == [0] + LE(0, 1) == [0, 0];
    assert LE(0, 3) == [0] + LE(0, 2) == [0, 0, 0];
  }

  /** Two policy bytes, both 0; the scales; the commitment to the tables. */
  lemma QuantLayout(h: HashFn, scales: seq<Scale>, tables: seq<ActivationTable>)
    ensures Enc(QUANT_BINDING, QuantValue(h, scales, tables))
            == Cat([[0], [0], Word32(|scales|) + EncItems(SCALE, ScalesValue(scales).items),
                    TablesCommitment(h, tables)])
  {
    hide Enc, EncItems, Cat, TablesCommitment, ScalesValue;
    var items := QuantValue(h, scales, tables).items;
    IntIs(Discriminant(2), 0);
    IntIs(Discriminant(1), 0);
    assert LE(0, 1) == [0] + LE(0, 0) == [0];
    BitsAre(TablesCommitment(h, tables));
    assert |ScalesValue(scales).items| == |scales| by { ScalesAre(scales); }
    ListIs(SCALE, ScalesValue(scales).items);
    assert ScalesValue(scales) == List(ScalesValue(scales).items) by { ScalesAre(scales); }
    RecordIs(QUANT_BINDING.fields, items);
    FieldsAre(QUANT_BINDING.fields, items,
              [[0], [0], Word32(|scales|) + EncItems(SCALE, ScalesValue(scales).items), TablesCommitment(h, tables)]);
  }

  lemma ScalesAre(ss: seq<Scale>)
    ensures ScalesValue(ss).List? && |ScalesValue(ss).items| == |ss|
  {
  }

  function MaybeDigest(d: Option<Digest>): seq<Byte> {
    if d.Some? then [1] + d.value else [0]
  }

  function MaybeShorts(x: Option<seq<int>>): seq<Byte> {
    if x.Some? then [1] + Shorts(x.value) else [0]
  }

  function MaybeCell(b: Option<FixedPoint.BoundedInt>): seq<Byte> {
    if b.Some? then [1] + (Word64(b.value.value) + (Word64(b.value.lo) + Word64(b.value.hi))) else [0]
  }

  lemma OptionalIs(inner: Kind, v: Value)
    ensures Enc(Optional(inner), Absent) == [0]
    ensures Enc(Optional(inner), Present(v)) == [1] + Enc(inner, v)
  {
  }

  lemma OptionsAre(d: Option<Digest>, x: Option<seq<int>>, b: Option<FixedPoint.BoundedInt>)
    ensures Enc(Optional(Hash32), OptDigest(d)) == MaybeDigest(d)
    ensures Enc(Optional(Vector(M31)), OptInts(x)) == MaybeShorts(x)
    ensures Enc(Optional(BOUNDED_INT), OptBounded(b)) == MaybeCell(b)
  {
    hide Enc;
    OptionalIs(Hash32, Absent);
    OptionalIs(Vector(M31), Absent);
    OptionalIs(BOUNDED_INT, Absent);
    if d.Some? { OptionalIs(Hash32, Bits(d.value)); BitsAre(d.value); }
    if x.Some? { OptionalIs(Vector(M31), Ints(x.value)); VectorsAre(x.value); }
    if b.Some? { OptionalIs(BOUNDED_INT, BoundedValue(b.value)); CellLayout(b.value); }
  }

  /** The public input, in declaration order. */
  function PublicParts(p: PublicInput): seq<seq<Byte>> {
    [p.relationId, p.modelCommitment, p.quantizationCommitment, p.plannerConfigCommitment,
     Byte1(StatementDiscriminant(p.statementType)),
     MaybeDigest(p.latentHistoryCommitment), MaybeShorts(p.latentHistoryPublic),
     MaybeDigest(p.goalLatentCommitment), MaybeShorts(p.goalLatentPublic),
     MaybeDigest(p.candidateActionsCommitment), MaybeShorts(p.candidateActionsPublic),
     p.claimedOutputCommitment, MaybeWord32(p.selectedIndex), MaybeCell(p.selectedCost)]
  }

  lemma PublicLayout(p: PublicInput)
    ensures Enc(PUBLIC_INPUT, PublicValue(p)) == Cat(PublicParts(p))
  {
    hide Enc, Cat, OptDigest, OptInts, OptNat, OptBounded, MaybeDigest, MaybeShorts, MaybeWord32, MaybeCell, LE,
      StatementDiscriminant;
    BitsAre(p.relationId);
    BitsAre(p.modelCommitment);
    BitsAre(p.quantizationCommitment);
    BitsAre(p.plannerConfigCommitment);
    BitsAre(p.claimedOutputCommitment);
    IntIs(Discriminant(5), StatementDiscriminant(p.statementType));
    OptionsAre(p.latentHistoryCommitment, p.latentHistoryPublic, p.selectedCost);
    OptionsAre(p.goalLatentCommitment, p.goalLatentPublic, None);
    OptionsAre(p.candidateActionsCommitment, p.candidateActionsPublic, None);
    OptionIs(p.selectedIndex);
    RecordIs(PUBLIC_INPUT.fields, PublicValue(p).items);
    FieldsAre(PUBLIC_INPUT.fields, PublicValue(p).items, PublicParts(p));
  }

  // ---------------------------------------------------------------- domain separation

  /** Text of one-byte characters other than NUL. */
  predicate Plain(s: string) {
    forall i :: 0 <= i < |s| ==> 0 < s[i] as int < 256
  }

  lemma TagAt(s: string, i: nat)
    requires |s| <= 16 && Plain(s) && i < 16
    ensures Tag(s)[i] == if i < |s| then s[i] as int else 0
  {
  }

  /** Strings hashed under different tags differ, whatever follows the tags. */
  lemma TagsApart(s: string, t: string, a: seq<Byte>, b: seq<Byte>)
    requires |s| <= 16 && |t| <= 16 && Plain(s) && Plain(t) && Tag(s) + a == Tag(t) + b
    ensures s == t && a == b
  {
    Pieces(Tag(s), a, Tag(t), b);
    hide Tag;
    if |s| < |t| {
      TagAt(s, |s|);
      TagAt(t, |s|);
    } else if |t| < |s| {
      TagAt(s, |t|);
      TagAt(t, |t|);
    } else {
      forall i | 0 <= i < |s| ensures s[i] == t[i] {
        TagAt(s, i);
        TagAt(t, i);
      }
    }
  }

  lemma TagsDiffer(s: string, t: string, a: seq<Byte>, b: seq<Byte>)
    requires |s| == |t| == 12 && Plain(s) && Plain(t) && s[5] != t[5]
    ensures Tag(s) + a != Tag(t) + b
  {
    if Tag(s) + a == Tag(t) + b { TagsApart(s, t, a, b); }
  }

  /** No op of a block, record of a trace or committed tensor hashes like an inner node of its Merkle tree. */
  lemma LeavesAreNotNodes(op: BlockOp, rec: OpRecord, t: TensorT, a: Digest, b: Digest)
    ensures LeafInput(op) != NodeTag() + a + b
    ensures Tag("pwm.tleaf.v1") + Enc(OP_RECORD, RecordValue(rec)) != Tag("pwm.tnode.v1") + a + b
    ensures WeightLeafInput(t) != Tag("pwm.wnode.v1") + a + b
  {
    hide Enc, LE, Tag;
    TagsDiffer("pwm.bleaf.v1", "pwm.bnode.v1", Enc(BLOCK_OP, OpValue(op)), a + b);
    TagsDiffer("pwm.tleaf.v1", "pwm.tnode.v1", Enc(OP_RECORD, RecordValue(rec)), a + b);
    var w := LE(t.tensorId, 4) + Enc(TENSOR, TensorValue(t));
    TagsDiffer("pwm.wleaf.v1", "pwm.wnode.v1", w, a + b);
    assert WeightLeafInput(t) == Tag("pwm.wleaf.v1") + w;
    assert NodeTag() + a + b == NodeTag() + (a + b);
    assert Tag("pwm.tnode.v1") + a + b == Tag("pwm.tnode.v1") + (a + b);
    assert Tag("pwm.wnode.v1") + a + b == Tag("pwm.wnode.v1") + (a + b);
  }
}
