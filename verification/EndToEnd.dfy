/**
 * The whole chain. A predictor proof whose public input commits to a compiled circuit and
 * to its inputs carries the result of the direct integer semantics, unless a challenge
 * escaped or the data yields a collision of the hash.
 */
module EndToEnd {
  import opened Wrappers
  import opened Bytes
  import opened Codec
  import opened Transcripts
  import opened Kernels
  import opened Tensors
  import opened Commitments
  import opened Blocks
  import opened Predictor
  import opened Binding
  import opened IntegerForward
  import opened Circuit
  import opened CircuitMeaning
  import opened CircuitRanges
  import opened CircuitAccepted
  import opened FeedForward
  import opened Lookups
  import opened Overflow
  import opened Arith
  import CP = CircuitProof
  import P = BlockProver
  import V = BlockVerifier
  import A = BlockAudit

  // ------------------------------------------------------- what the commitments bind

  predicate TensorsFit(ws: seq<TensorT>) {
    forall t :: t in InIdOrder(ws) ==> TensorFits(t)
  }

  /**
   * The model commitment binds the skeleton and the weights: for op and tensor lists of
   * equal length, equal commitments to different ones yield a collision.
   */
  function ModelClash(h: HashFn, a: Block, ws: seq<TensorT>, b: Block, vs: seq<TensorT>): (c: Pair)
    requires |a.ops| == |b.ops| && |ws| == |vs|
    requires OpsFit(Skeleton(a.ops)) && OpsFit(Skeleton(b.ops)) && TensorsFit(ws) && TensorsFit(vs)
    requires Skeleton(a.ops) != Skeleton(b.ops) || InIdOrder(ws) != InIdOrder(vs)
    requires ModelCommitment(h, ArchitectureCommitment(h, a), WeightsRoot(h, ws))
          == ModelCommitment(h, ArchitectureCommitment(h, b), WeightsRoot(h, vs))
    ensures c.Collides(h)
  {
    var x, y := ArchitectureCommitment(h, a), ArchitectureCommitment(h, b);
    var v, w := ModelValue(x, WeightsRoot(h, ws)), ModelValue(y, WeightsRoot(h, vs));
    if v != w then
      ModelTyped(x, WeightsRoot(h, ws));
      ModelTyped(y, WeightsRoot(h, vs));
      ValueClash(h, Tag("pwm.model.v1"), MODEL_BINDING, v, w)
    else
      assert v.items[0] == Bits(x) && w.items[0] == Bits(y);
      assert v.items[1] == Bits(WeightsRoot(h, ws)) && w.items[1] == Bits(WeightsRoot(h, vs));
      if Skeleton(a.ops) != Skeleton(b.ops) then BlockRootClash(h, Skeleton(a.ops), Skeleton(b.ops))
      else WeightsClash(h, ws, vs)
  }

  predicate InputsTyped(inputs: Inputs) { Typed(INPUT_LIST, InputsValue(inputs)) }

  lemma InputsValueInjective(a: Inputs, b: Inputs)
    requires InputsValue(a) == InputsValue(b)
    ensures a == b
  {
    var va, vb := InputsValue(a).items, InputsValue(b).items;
    assert |va| == |vb|;
    forall i | 0 <= i < |a| ensures a[i] == b[i] {
      assert va[i] == List([Int(a[i].0), Ints(a[i].1)]) && vb[i] == List([Int(b[i].0), Ints(b[i].1)]);
      assert va[i].items[0] == vb[i].items[0] && va[i].items[1] == vb[i].items[1];
      IntsInjective(a[i].1, b[i].1);
    }
  }

  /** The input commitment binds the seeded buffers. */
  function InputsClash(h: HashFn, a: Inputs, b: Inputs): (c: Pair)
    requires InputsTyped(a) && InputsTyped(b) && a != b && InputsCommitment(h, a) == InputsCommitment(h, b)
    ensures c.Collides(h)
  {
    assert InputsValue(a) != InputsValue(b) by { if InputsValue(a) == InputsValue(b) { InputsValueInjective(a, b); } }
    ValueClash(h, Tag("pwm.pinput.v1"), INPUT_LIST, InputsValue(a), InputsValue(b))
  }

  // -------------------------------------------- bindings that find the same tensors

  /** Every lookup gives the same answer. */
  ghost predicate SameLookups(m: P.Bindings, n: P.Bindings) {
    && (forall id :: FindTensor(m.weights, id) == FindTensor(n.weights, id))
    && (forall id :: FindTable(m.tables, id) == FindTable(n.tables, id))
  }

  lemma SameOp(op: BlockOp, m: P.Bindings, n: P.Bindings, bufs: P.Bufs)
    requires SameLookups(m, n)
    ensures P.ProveOp(op, m, bufs) == P.ProveOp(op, n, bufs)
  {
    hide RequantAll, EvalAll, Kernels.LayerNorm, ModulateVec, GateVec, ResidualAdd, Kernels.MatMul, SoftmaxRows,
         LinearRows, Kernels.Linear;
  }

  lemma {:induction false} SameRun(ops: seq<BlockOp>, m: P.Bindings, n: P.Bindings, bufs: P.Bufs)
    requires SameLookups(m, n)
    ensures P.ProveOps(ops, m, bufs) == P.ProveOps(ops, n, bufs)
  {
    hide SameLookups, P.ProveOp;
    if |ops| != 0 {
      SameRun(ops[..|ops| - 1], m, n, bufs);
      var run := P.ProveOps(ops[..|ops| - 1], m, bufs);
      if run.Ok? {
        SameOp(ops[|ops| - 1], m, n, run.value.1);
      }
    }
  }

  /** The same tensors and tables in id order look up alike. */
  lemma OrderedAlike(m: P.Bindings, n: P.Bindings)
    requires InIdOrder(m.weights) == InIdOrder(n.weights) && SortedTables(m.tables) == SortedTables(n.tables)
    ensures SameLookups(m, n)
  {
    hide InIdOrder, SortedTables;
    forall id ensures FindTensor(m.weights, id) == FindTensor(n.weights, id) {
      TensorsAlike(m.weights, n.weights, id);
    }
    forall id ensures FindTable(m.tables, id) == FindTable(n.tables, id) {
      TablesAlike(m.tables, n.tables, id);
    }
  }

  // ---------------------------------------------------------------------- the theorem

  /** A public input that commits to the circuit's model, its scales and tables, and its inputs. */
  predicate CommitsTo(h: HashFn, p: PublicInput, c: PredictorCircuit, scales: seq<Scale>,
                      tables: seq<ActivationTable>) {
    && p.modelCommitment == ModelCommitment(h, BlockRoot(h, Skeleton(c.block.ops)), WeightsRoot(h, c.weights))
    && p.quantizationCommitment == QuantCommitment(h, scales, tables)
    && p.latentHistoryCommitment == Some(InputsCommitment(h, c.inputs))
  }

  /** The artifact carries the committed circuit: skeleton, weights and tables in id order, scales, inputs. */
  predicate Carries(a: PredictorArtifact, c: PredictorCircuit, scales: seq<Scale>, tables: seq<ActivationTable>) {
    && Skeleton(a.block.ops) == Skeleton(c.block.ops) && InIdOrder(a.weights) == InIdOrder(c.weights)
    && a.scales == scales && SortedTables(a.tables) == SortedTables(tables) && a.inputs == c.inputs
  }

  /** Everything lies in the range of its machine type, and the lists are equally long. */
  predicate Comparable(h: HashFn, a: PredictorArtifact, c: PredictorCircuit, scales: seq<Scale>,
                       tables: seq<ActivationTable>)
  {
    && |a.block.ops| == |c.block.ops| && |a.weights| == |c.weights|
    && OpsFit(Skeleton(a.block.ops)) && OpsFit(Skeleton(c.block.ops))
    && TensorsFit(a.weights) && TensorsFit(c.weights)
    && QuantFits(h, a.scales, a.tables) && QuantFits(h, scales, tables)
    && InputsTyped(a.inputs) && InputsTyped(c.inputs)
  }

  /** An accepted artifact for the commitments that carries something else: the collision. */
  function SubstitutionClash(h: HashFn, a: PredictorArtifact, c: PredictorCircuit, scales: seq<Scale>,
                             tables: seq<ActivationTable>): (p: Pair)
    requires VerifyPredictor(h, a).Ok? && CommitsTo(h, a.publicInput, c, scales, tables)
    requires Comparable(h, a, c, scales, tables) && !Carries(a, c, scales, tables)
    ensures p.Collides(h)
  {
    AcceptedIff(h, a);
    if a.inputs != c.inputs then InputsClash(h, a.inputs, c.inputs)
    else if a.scales != scales || SortedTables(a.tables) != SortedTables(tables)
    then QuantClash(h, a.scales, a.tables, scales, tables)
    else ModelClash(h, a.block, a.weights, c.block, c.weights)
  }

  lemma CarriedWellBound(a: PredictorArtifact, c: PredictorCircuit, tables: seq<ActivationTable>)
    requires Skeleton(a.block.ops) == Skeleton(c.block.ops)
    requires SameLookups(BindingsOf(a), P.Bindings(c.weights, tables))
    requires A.AllWellBound(c.block.ops, P.Bindings(c.weights, tables))
    ensures A.AllWellBound(a.block.ops, BindingsOf(a))
  {
    A.SkeletonWellBound(c.block.ops, a.block.ops, P.Bindings(c.weights, tables));
    forall i | 0 <= i < |a.block.ops| ensures A.WellBound(a.block.ops[i], BindingsOf(a)) {
      assert A.WellBound(a.block.ops[i], P.Bindings(c.weights, tables));
    }
  }

  /**
   * End to end: an accepted proof for the commitments of a compiled predictor either
   * carries the result of the direct semantics, or drew a challenge that escaped. (If it
   * does not carry the committed circuit, SubstitutionClash computes a collision.)
   */
  lemma CommittedMeansForward(h: HashFn, n: Dims, xq: seq<int>, cq: seq<int>, qbs: seq<QuantBlock>, dp: DerivedParams,
                              t: Tables, scales: seq<Scale>, tables: seq<ActivationTable>, a: PredictorArtifact)
    requires Compilable(n, xq, cq, qbs, dp, t, tables) && GuardWidths(n) && Forward(n, qbs, xq, cq, dp, t).Some?
    requires var c := BuildPredictor(n, xq, cq, qbs, dp);
             Carries(a, c, scales, tables) && a.block.outputBuf == c.block.outputBuf
    requires VerifyPredictor(h, a).Ok?
    ensures || a.claimedOutput.Values() == Forward(n, qbs, xq, cq, dp, t).value
            || A.SomeEscape(h, a.block.ops, BindingsOf(a), P.Seed(a.inputs), TranscriptOf(h, a))
  {
    var c := BuildPredictor(n, xq, cq, qbs, dp);
    var m := P.Bindings(c.weights, tables);
    CircuitMeansForward(n, xq, cq, qbs, dp, t, tables);
    CircuitWellBound(n, xq, cq, qbs, dp, tables);
    OrderedAlike(BindingsOf(a), m);
    hide BuildPredictor, Forward, VerifyPredictor, A.AllWellBound, A.SomeEscape, A.FinalBuffer, TranscriptOf,
         P.ProveBlock, Compilable, SameLookups, StatementHolds, OutputBound;
    CarriedWellBound(a, c, tables);
    PredictorSound(h, a);
    SameFinal(c.block, a.block, m, a.inputs);
    SameBuffer(a.block.(ops := Skeleton(a.block.ops)), BindingsOf(a), m, a.inputs);
  }

  lemma SameBuffer(block: Block, m: P.Bindings, n: P.Bindings, inputs: Inputs)
    requires SameLookups(m, n)
    ensures A.FinalBuffer(block, m, inputs) == A.FinalBuffer(block, n, inputs)
  {
    SameRun(block.ops, m, n, P.Seed(inputs));
  }

  lemma OutputFits(tensorId: nat, scaleId: nat, values: seq<int>)
    requires |values| < TWO32 && AllIn(values, CLO, CHI)
    ensures OutputTensor(tensorId, scaleId, values).Some?
  {
  }

  /** The prover's steps after the run. */
  lemma Assembled(h: HashFn, skeleton: Block, filled: Block, m: P.Bindings, scales: seq<Scale>, inputs: Inputs,
                  ob: OutputBinding, root: Digest, values: seq<int>)
    requires P.ProveBlock(skeleton, m, inputs) == Ok(filled)
             && P.LastWriter(filled.ops, filled.outputBuf) == Some(values)
    requires OutputTensor(ob.tensorId, ob.scaleId, values).Some?
    ensures var r := ProvePredictor(h, skeleton, m, scales, inputs, ob, root);
            r.Ok? && r.value.claimedOutput.Values() == values
  {
    hide P.ProveBlock, P.LastWriter, OutputTensor, PredictorInput;
  }

  /** The proof of a compiled circuit can be assembled, and carries the direct result. */
  lemma CommittedProved(h: HashFn, n: Dims, xq: seq<int>, cq: seq<int>, qbs: seq<QuantBlock>, dp: DerivedParams,
                        t: Tables, tables: seq<ActivationTable>, scales: seq<Scale>, ob: OutputBinding, root: Digest)
    requires Compilable(n, xq, cq, qbs, dp, t, tables) && Forward(n, qbs, xq, cq, dp, t).Some?
    ensures var c := BuildPredictor(n, xq, cq, qbs, dp);
            var r := ProvePredictor(h, c.block, P.Bindings(c.weights, tables), scales, c.inputs, ob, root);
            r.Ok? && r.value.claimedOutput.Values() == Forward(n, qbs, xq, cq, dp, t).value
  {
    CP.Fits(n);
    hide BuildPredictor, Forward, P.ProveBlock, P.LastWriter, A.FinalBuffer, OutputTensor, ProvePredictor, FitsU32,
         BlockOk, QuantBlock.Shaped, CP.HasTables;
    var c := BuildPredictor(n, xq, cq, qbs, dp);
    var m := P.Bindings(c.weights, tables);
    CircuitMeansForward(n, xq, cq, qbs, dp, t, tables);
    OutputWritten(n, xq, cq, qbs, dp);
    ForwardInt8(n, qbs, xq, cq, dp, t);
    var values := Forward(n, qbs, xq, cq, dp, t).value;
    var filled := P.ProveBlock(c.block, m, c.inputs).value;
    WrittenStays(c.block, filled, m, c.inputs);
    ProvedOutput(c.block, filled, m, c.inputs);
    OutputFits(ob.tensorId, ob.scaleId, values);
    Assembled(h, c.block, filled, m, scales, c.inputs, ob, root, values);
  }

  /**
   * End to end, the other way: within the caps of the range analysis the honest proof of
   * a compiled predictor exists, carries the result of the direct semantics, and is
   * accepted, whatever challenges the hash yields.
   */
  lemma CommittedAccepted(h: HashFn, n: Dims, xq: seq<int>, cq: seq<int>, qbs: seq<QuantBlock>, dp: DerivedParams,
                          t: Tables, tables: seq<ActivationTable>, scales: seq<Scale>, ob: OutputBinding)
    requires Compilable(n, xq, cq, qbs, dp, t, tables) && InCaps(n, dp, t) && Forward(n, qbs, xq, cq, dp, t).Some?
    requires AllIn(xq, CLO, CHI) && AllIn(cq, CLO, CHI)
    ensures var c := BuildPredictor(n, xq, cq, qbs, dp);
            var r := ProvePredictor(h, c.block, P.Bindings(c.weights, tables), scales, c.inputs, ob,
                                    WeightsRoot(h, c.weights));
            && r.Ok? && r.value.claimedOutput.Values() == Forward(n, qbs, xq, cq, dp, t).value
            && VerifyPredictor(h, r.value).Ok?
  {
    var c := BuildPredictor(n, xq, cq, qbs, dp);
    var m, root := P.Bindings(c.weights, tables), WeightsRoot(h, c.weights);
    CommittedProved(h, n, xq, cq, qbs, dp, t, tables, scales, ob, root);
    CircuitInI64(n, xq, cq, qbs, dp, t, tables);
    hide BuildPredictor, Forward, InCaps, Compilable, ProvePredictor, VerifyPredictor, A.AllInsideGuards,
         A.AllInt8Bound, RunInI64, P.ProveBlock, WeightsRoot;
    var a := ProvePredictor(h, c.block, m, scales, c.inputs, ob, root).value;
    ProvedParts(h, c.block, m, scales, c.inputs, ob, root, a);
    PredictorComplete(h, c.block, m, scales, c.inputs, ob, root, a);
  }
}
