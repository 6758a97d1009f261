/**
 * crates/pwm-core/src/commit.rs, tables.rs and public_input.rs: the commitments of a
 * proof, each the hash of a tag, a length and canonical bytes.
 */
module Commitments {
  import opened Wrappers
  import opened Arith
  import opened Bytes
  import opened Codec
  import opened Transcripts
  import opened Tensors
  import opened Kernels
  import opened Sorting
  import FixedPoint
  import Field
  import Merkle

  // ----------------------------------------------------------------- commitments

  function Tag(name: string): (t: seq<Byte>)
    requires |name| <= 16
    ensures |t| == 16
  {
    Ascii(name) + Zero(16 - |name|)
  }

  function CommitInput(tag: seq<Byte>, payload: seq<Byte>): seq<Byte> {
    tag + LE(|payload|, 8) + payload
  }

  function Commit(h: HashFn, tag: seq<Byte>, payload: seq<Byte>): Digest {
    h(CommitInput(tag, payload))
  }

  /** Equal commitments to different payloads: the colliding inputs. */
  function CommitClash(h: HashFn, tag: seq<Byte>, a: seq<Byte>, b: seq<Byte>): (c: Pair)
    requires Commit(h, tag, a) == Commit(h, tag, b) && a != b
    ensures c.Collides(h)
  {
    var n := |tag| + 8;
    assert CommitInput(tag, a)[n..] == a && CommitInput(tag, b)[n..] == b;
    Pair(CommitInput(tag, a), CommitInput(tag, b))
  }

  /** The same for canonical encodings of values of one kind. */
  function ValueClash(h: HashFn, tag: seq<Byte>, k: Kind, v: Value, w: Value): (c: Pair)
    requires Typed(k, v) && Typed(k, w) && Commit(h, tag, Enc(k, v)) == Commit(h, tag, Enc(k, w)) && v != w
    ensures c.Collides(h)
  {
    assert Enc(k, v) != Enc(k, w) by { if Enc(k, v) == Enc(k, w) { EncInjective(k, v, w); } }
    CommitClash(h, tag, Enc(k, v), Enc(k, w))
  }

  // ------------------------------------------------------------- the bound values

  datatype Scale = Scale(scaleId: nat, log2: int, dtype: nat)

  const I64S: Kind := Vector(I64)
  const SCALE: Kind := Record([U32, I32, Discriminant(3)])
  const TABLE: Kind := Record([U32, I64, I64S])
  const MODEL_BINDING: Kind := Record([Hash32, Hash32, U32, U32])
  const QUANT_BINDING: Kind := Record([Discriminant(2), Discriminant(1), Vector(SCALE), Hash32])
  const PLANNER_BINDING: Kind := Record([U32, U32, U32, U32])

  function Ints(xs: seq<int>): (v: Value)
    ensures v.List? && |v.items| == |xs| && forall i :: 0 <= i < |xs| ==> v.items[i] == Int(xs[i])
  {
    List(seq(|xs|, i requires 0 <= i < |xs| => Int(xs[i])))
  }

  lemma IntsInjective(a: seq<int>, b: seq<int>)
    requires Ints(a) == Ints(b)
    ensures a == b
  {
    assert |Ints(a).items| == |Ints(b).items|;
    forall i | 0 <= i < |a| ensures a[i] == b[i] { assert Ints(a).items[i] == Ints(b).items[i]; }
  }

  function ScaleValue(s: Scale): Value {
    List([Int(s.scaleId), Int(s.log2), Int(s.dtype)])
  }

  function TableValue(t: ActivationTable): Value {
    List([Int(t.tableId), Int(t.lo), Ints(t.outputs)])
  }

  function BoundedValue(b: FixedPoint.BoundedInt): Value {
    List([Int(b.value), Int(b.lo), Int(b.hi)])
  }

  function TensorValue(t: TensorT): Value {
    List([Int(t.tensorId), Int(t.scaleId), Ints(t.shape),
          List(seq(|t.data|, i requires 0 <= i < |t.data| => BoundedValue(t.data[i])))])
  }

  lemma TensorValueInjective(a: TensorT, b: TensorT)
    requires TensorValue(a) == TensorValue(b)
    ensures a == b
  {
    var va, vb := TensorValue(a).items, TensorValue(b).items;
    assert va[0] == vb[0] && va[1] == vb[1] && va[2] == vb[2] && va[3] == vb[3];
    IntsInjective(a.shape, b.shape);
    assert |va[3].items| == |vb[3].items|;
    forall i | 0 <= i < |a.data| ensures a.data[i] == b.data[i] {
      assert va[3].items[i] == BoundedValue(a.data[i]) && vb[3].items[i] == BoundedValue(b.data[i]);
      BoundedValueInjective(a.data[i], b.data[i]);
    }
  }

  lemma BoundedValueInjective(a: FixedPoint.BoundedInt, b: FixedPoint.BoundedInt)
    requires BoundedValue(a) == BoundedValue(b)
    ensures a == b
  {
    var va, vb := BoundedValue(a).items, BoundedValue(b).items;
    assert va[0] == vb[0] && va[1] == vb[1] && va[2] == vb[2];
  }

  // -------------------------------------------------------------- the weight root

  function WeightLeafInput(t: TensorT): seq<Byte> {
    Tag("pwm.wleaf.v1") + LE(t.tensorId, 4) + Enc(TENSOR, TensorValue(t))
  }

  function WeightLeaf(h: HashFn, t: TensorT): Digest {
    h(WeightLeafInput(t))
  }

  function KeyedTensors(ts: seq<TensorT>): (k: seq<(int, TensorT)>)
    ensures |k| == |ts| && forall i :: 0 <= i < |ts| ==> k[i] == (ts[i].tensorId, ts[i])
  {
    seq(|ts|, i requires 0 <= i < |ts| => (ts[i].tensorId, ts[i]))
  }

  /** The tensors in ascending id order. */
  function InIdOrder(ts: seq<TensorT>): (r: seq<TensorT>)
    ensures |r| == |ts|
  {
    Values(Sort(KeyedTensors(ts)))
  }

  function WeightLeaves(h: HashFn, ts: seq<TensorT>): (l: seq<Digest>)
    ensures |l| == |ts|
  {
    seq(|ts|, i requires 0 <= i < |ts| => WeightLeaf(h, ts[i]))
  }

  function WeightsRoot(h: HashFn, ts: seq<TensorT>): Digest {
    Merkle.Root(h, Tag("pwm.wnode.v1"), WeightLeaves(h, InIdOrder(ts)))
  }

  predicate TensorFits(t: TensorT) { Typed(TENSOR, TensorValue(t)) }

  lemma LeafInputInjective(a: TensorT, b: TensorT)
    requires TensorFits(a) && TensorFits(b) && WeightLeafInput(a) == WeightLeafInput(b)
    ensures a == b
  {
    assert WeightLeafInput(a)[20..] == Enc(TENSOR, TensorValue(a));
    assert WeightLeafInput(b)[20..] == Enc(TENSOR, TensorValue(b));
    EncInjective(TENSOR, TensorValue(a), TensorValue(b));
    TensorValueInjective(a, b);
  }

  /** Different leaf preimages in the same slot: the first pair that collides. */
  function LeavesClash(h: HashFn, a: seq<TensorT>, b: seq<TensorT>): (c: Pair)
    requires |a| == |b| && a != b && WeightLeaves(h, a) == WeightLeaves(h, b)
    requires (forall t :: t in a ==> TensorFits(t)) && (forall t :: t in b ==> TensorFits(t))
    ensures c.Collides(h)
    decreases |a|
  {
    var n := |a| - 1;
    assert WeightLeaves(h, a)[n] == WeightLeaf(h, a[n]) && WeightLeaves(h, b)[n] == WeightLeaf(h, b[n]);
    if a[n] != b[n] then
      assert WeightLeafInput(a[n]) != WeightLeafInput(b[n]) by {
        assert a[n] in a && b[n] in b;
        if WeightLeafInput(a[n]) == WeightLeafInput(b[n]) { LeafInputInjective(a[n], b[n]); }
      }
      Pair(WeightLeafInput(a[n]), WeightLeafInput(b[n]))
    else
      assert a[..n] != b[..n] by { if a[..n] == b[..n] { SameLists(a, b); } }
      assert WeightLeaves(h, a[..n]) == WeightLeaves(h, a)[..n] && WeightLeaves(h, b[..n]) == WeightLeaves(h, b)[..n];
      LeavesClash(h, a[..n], b[..n])
  }

  /**
   * The weight root binds the tensors: equal roots over equally many tensors that are
   * not the same tensors in id order exhibit a collision.
   */
  function WeightsClash(h: HashFn, a: seq<TensorT>, b: seq<TensorT>): (c: Pair)
    requires |a| == |b| && WeightsRoot(h, a) == WeightsRoot(h, b) && InIdOrder(a) != InIdOrder(b)
    requires (forall t :: t in InIdOrder(a) ==> TensorFits(t)) && (forall t :: t in InIdOrder(b) ==> TensorFits(t))
    ensures c.Collides(h)
  {
    var la, lb := WeightLeaves(h, InIdOrder(a)), WeightLeaves(h, InIdOrder(b));
    if la != lb then Merkle.RootClash(h, Tag("pwm.wnode.v1"), la, lb)
    else LeavesClash(h, InIdOrder(a), InIdOrder(b))
  }

  /** The order in which tensors with different ids are listed does not matter. */
  lemma WeightsRootOrderFree(h: HashFn, a: seq<TensorT>, b: seq<TensorT>)
    requires multiset(KeyedTensors(a)) == multiset(KeyedTensors(b)) && KeyDetermines(KeyedTensors(a))
    ensures WeightsRoot(h, a) == WeightsRoot(h, b)
  {
    SortUnique(KeyedTensors(a), KeyedTensors(b));
  }

  // ----------------------------------------------------- model, quantization, planner

  const RELATION_VERSION := 1
  const SERIALIZATION_VERSION := 1

  function ModelCommitment(h: HashFn, architecture: Digest, weightsRoot: Digest): Digest {
    Commit(h, Tag("pwm.model.v1"), Enc(MODEL_BINDING, ModelValue(architecture, weightsRoot)))
  }

  function ModelValue(architecture: Digest, weightsRoot: Digest): Value {
    List([Bits(architecture), Bits(weightsRoot), Int(RELATION_VERSION), Int(SERIALIZATION_VERSION)])
  }

  lemma ModelTyped(architecture: Digest, root: Digest)
    ensures Typed(MODEL_BINDING, ModelValue(architecture, root))
  {
    var ks, vs := MODEL_BINDING.fields, ModelValue(architecture, root).items;
    assert TypedFields(ks[4..], vs[4..]);
    assert ks[3..][1..] == ks[4..] && vs[3..][1..] == vs[4..];
    assert TypedFields(ks[3..], vs[3..]);
    assert ks[2..][1..] == ks[3..] && vs[2..][1..] == vs[3..];
    assert TypedFields(ks[2..], vs[2..]);
    assert ks[1..][1..] == ks[2..] && vs[1..][1..] == vs[2..];
    assert TypedFields(ks[1..], vs[1..]);
  }

  function KeyedTables(ts: seq<ActivationTable>): (k: seq<(int, ActivationTable)>)
    ensures |k| == |ts|
  {
    seq(|ts|, i requires 0 <= i < |ts| => (ts[i].tableId, ts[i]))
  }

  function TablesValue(ts: seq<ActivationTable>): Value {
    List(seq(|ts|, i requires 0 <= i < |ts| => TableValue(ts[i])))
  }

  function TablesCommitment(h: HashFn, ts: seq<ActivationTable>): Digest {
    Commit(h, Tag("pwm.table.v1"), Enc(Vector(TABLE), TablesValue(SortedTables(ts))))
  }

  function ScalesValue(ss: seq<Scale>): Value {
    List(seq(|ss|, i requires 0 <= i < |ss| => ScaleValue(ss[i])))
  }

  /** Nearest-even rounding and overflow reject are the only policies bound. */
  function QuantCommitment(h: HashFn, scales: seq<Scale>, tables: seq<ActivationTable>): Digest {
    Commit(h, Tag("pwm.quant.v1"),
           Enc(QUANT_BINDING, QuantValue(h, scales, tables)))
  }

  function SortedTables(ts: seq<ActivationTable>): seq<ActivationTable> {
    Values(Sort(KeyedTables(ts)))
  }

  lemma ScalesInjective(a: seq<Scale>, b: seq<Scale>)
    requires ScalesValue(a) == ScalesValue(b)
    ensures a == b
  {
    var va, vb := ScalesValue(a).items, ScalesValue(b).items;
    assert |va| == |vb|;
    forall i | 0 <= i < |a| ensures a[i] == b[i] {
      var x, y := va[i].items, vb[i].items;
      assert va[i] == ScaleValue(a[i]) && vb[i] == ScaleValue(b[i]);
      assert x[0] == y[0] && x[1] == y[1] && x[2] == y[2];
    }
  }

  lemma TablesInjective(a: seq<ActivationTable>, b: seq<ActivationTable>)
    requires TablesValue(a) == TablesValue(b)
    ensures a == b
  {
    var va, vb := TablesValue(a).items, TablesValue(b).items;
    assert |va| == |vb|;
    forall i | 0 <= i < |a| ensures a[i] == b[i] {
      var x, y := va[i].items, vb[i].items;
      assert va[i] == TableValue(a[i]) && vb[i] == TableValue(b[i]);
      assert x[0] == y[0] && x[1] == y[1] && x[2] == y[2];
      IntsInjective(a[i].outputs, b[i].outputs);
    }
  }

  function QuantValue(h: HashFn, scales: seq<Scale>, tables: seq<ActivationTable>): Value {
    List([Int(0), Int(0), ScalesValue(scales), Bits(TablesCommitment(h, tables))])
  }

  /** Scales and tables in the range of their machine types. */
  predicate QuantFits(h: HashFn, scales: seq<Scale>, tables: seq<ActivationTable>) {
    Typed(QUANT_BINDING, QuantValue(h, scales, tables)) && Typed(Vector(TABLE), TablesValue(SortedTables(tables)))
  }

  /** The quantization commitment binds the scales and the tables in id order. */
  function QuantClash(h: HashFn, s: seq<Scale>, t: seq<ActivationTable>, s': seq<Scale>,
                      t': seq<ActivationTable>): (c: Pair)
    requires QuantFits(h, s, t) && QuantFits(h, s', t') && QuantCommitment(h, s, t) == QuantCommitment(h, s', t')
    requires s != s' || SortedTables(t) != SortedTables(t')
    ensures c.Collides(h)
  {
    var v, w := QuantValue(h, s, t), QuantValue(h, s', t');
    if v != w then ValueClash(h, Tag("pwm.quant.v1"), QUANT_BINDING, v, w)
    else
      assert v.items[2] == w.items[2] && v.items[3] == w.items[3];
      ScalesInjective(s, s');
      assert TablesValue(SortedTables(t)) != TablesValue(SortedTables(t')) by {
        if TablesValue(SortedTables(t)) == TablesValue(SortedTables(t')) {
          TablesInjective(SortedTables(t), SortedTables(t'));
        }
      }
      ValueClash(h, Tag("pwm.table.v1"), Vector(TABLE), TablesValue(SortedTables(t)), TablesValue(SortedTables(t')))
  }

  function PlannerSentinel(h: HashFn): Digest {
    Commit(h, Tag("pwm.plan.v1"), Enc(PLANNER_BINDING, List([Int(0), Int(0), Int(0), Int(0)])))
  }

  function OutputCommitment(h: HashFn, t: TensorT): Digest {
    Commit(h, Tag("pwm.out.v1"), Enc(Vector(TENSOR), List([TensorValue(t)])))
  }

  /** The output commitment binds the claimed output tensor. */
  function OutputClash(h: HashFn, a: TensorT, b: TensorT): (c: Pair)
    requires Typed(Vector(TENSOR), List([TensorValue(a)])) && Typed(Vector(TENSOR), List([TensorValue(b)]))
    requires a != b && OutputCommitment(h, a) == OutputCommitment(h, b)
    ensures c.Collides(h)
  {
    var v, w := List([TensorValue(a)]), List([TensorValue(b)]);
    assert v != w by { if v == w { assert v.items[0] == w.items[0]; TensorValueInjective(a, b); } }
    ValueClash(h, Tag("pwm.out.v1"), Vector(TENSOR), v, w)
  }

  function RelationId(h: HashFn, relation: string): Digest {
    h(Ascii(relation))
  }

  // ---------------------------------------------------------------- public input

  datatype StatementType = P0Step | P1Rollout | P2FixedCandidatePlanning | P3Cem | P4PixelToPlan

  function StatementDiscriminant(s: StatementType): nat {
    match s
    case P0Step => 0
    case P1Rollout => 1
    case P2FixedCandidatePlanning => 2
    case P3Cem => 3
    case P4PixelToPlan => 4
  }

  /** An M31 residue as carried in the public input. */
  datatype PublicInput = PublicInput(
    relationId: Digest,
    modelCommitment: Digest,
    quantizationCommitment: Digest,
    plannerConfigCommitment: Digest,
    statementType: StatementType,
    latentHistoryCommitment: Option<Digest>,
    latentHistoryPublic: Option<seq<int>>,
    goalLatentCommitment: Option<Digest>,
    goalLatentPublic: Option<seq<int>>,
    candidateActionsCommitment: Option<Digest>,
    candidateActionsPublic: Option<seq<int>>,
    claimedOutputCommitment: Digest,
    selectedIndex: Option<nat>,
    selectedCost: Option<FixedPoint.BoundedInt>)

  const PUBLIC_INPUT: Kind := Record([
    Hash32, Hash32, Hash32, Hash32, Discriminant(5),
    Optional(Hash32), Optional(Vector(M31)), Optional(Hash32), Optional(Vector(M31)), Optional(Hash32),
        Optional(Vector(M31)),
    Hash32, Optional(U32), Optional(BOUNDED_INT)
  ])

  function OptDigest(d: Option<Digest>): Value {
    match d
    case None => Absent
    case Some(v) => Present(Bits(v))
  }

  function OptInts(x: Option<seq<int>>): Value {
    match x
    case None => Absent
    case Some(v) => Present(Ints(v))
  }

  function OptNat(x: Option<nat>): Value {
    match x
    case None => Absent
    case Some(v) => Present(Int(v))
  }

  function OptBounded(x: Option<FixedPoint.BoundedInt>): Value {
    match x
    case None => Absent
    case Some(v) => Present(BoundedValue(v))
  }

  function PublicValue(p: PublicInput): Value {
    List([
      Bits(p.relationId), Bits(p.modelCommitment), Bits(p.quantizationCommitment), Bits(p.plannerConfigCommitment),
      Int(StatementDiscriminant(p.statementType)),
      OptDigest(p.latentHistoryCommitment), OptInts(p.latentHistoryPublic),
      OptDigest(p.goalLatentCommitment), OptInts(p.goalLatentPublic),
      OptDigest(p.candidateActionsCommitment), OptInts(p.candidateActionsPublic),
      Bits(p.claimedOutputCommitment), OptNat(p.selectedIndex), OptBounded(p.selectedCost)
    ])
  }

  predicate PublicFits(p: PublicInput) { Typed(PUBLIC_INPUT, PublicValue(p)) }

  lemma OptIntsInjective(a: Option<seq<int>>, b: Option<seq<int>>)
    requires OptInts(a) == OptInts(b)
    ensures a == b
  {
    if a.Some? && b.Some? {
      assert OptInts(a).v == Ints(a.value) && OptInts(b).v == Ints(b.value);
      IntsInjective(a.value, b.value);
    }
  }

  lemma PublicValueInjective(p: PublicInput, q: PublicInput)
    requires PublicValue(p) == PublicValue(q)
    ensures p == q
  {
    var a, b := PublicValue(p).items, PublicValue(q).items;
    assert forall i :: 0 <= i < 14 ==> a[i] == b[i];
    OptIntsInjective(p.latentHistoryPublic, q.latentHistoryPublic);
    OptIntsInjective(p.goalLatentPublic, q.goalLatentPublic);
    OptIntsInjective(p.candidateActionsPublic, q.candidateActionsPublic);
    assert a[4] == b[4] && a[5] == b[5] && a[7] == b[7] && a[9] == b[9] && a[12] == b[12] && a[13] == b[13];
    if p.selectedCost.Some? && q.selectedCost.Some? {
      assert a[13].v == b[13].v;
      BoundedValueInjective(p.selectedCost.value, q.selectedCost.value);
    }
  }

  function DigestInput(p: PublicInput): seq<Byte> {
    Tag("pwm.pid.v1") + Enc(PUBLIC_INPUT, PublicValue(p))
  }

  function PublicDigest(h: HashFn, p: PublicInput): Digest {
    h(DigestInput(p))
  }

  lemma DigestInputInjective(p: PublicInput, q: PublicInput)
    requires PublicFits(p) && PublicFits(q) && DigestInput(p) == DigestInput(q)
    ensures p == q
  {
    assert DigestInput(p)[16..] == Enc(PUBLIC_INPUT, PublicValue(p))
           && DigestInput(q)[16..] == Enc(PUBLIC_INPUT, PublicValue(q));
    EncInjective(PUBLIC_INPUT, PublicValue(p), PublicValue(q));
    PublicValueInjective(p, q);
  }

  /** The transcript prefix shared by both sides. */
  function InitEntries(h: HashFn, p: PublicInput): (es: seq<Entry>)
    ensures |es| == 2 && AllSized(es)
  {
    [Entry(Ascii("protocol_version"), LE(1, 8)), Entry(Ascii("public_input_digest"), PublicDigest(h, p))]
  }

  function FsStart(h: HashFn): Digest { InitState(h, Ascii("pwm.fs.v1")) }
}
