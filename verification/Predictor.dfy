/**
 * The commitment-bound predictor proof: `prove_predictor_with_weights_root` of
 * crates/pwm-prover/src/lib.rs and `verify_predictor` of crates/pwm-verifier/src/lib.rs.
 */
module Predictor {
  import opened Wrappers
  import opened Bytes
  import opened Codec
  import opened Transcripts
  import opened Kernels
  import opened Tensors
  import opened Commitments
  import opened Blocks
  import opened FeedForward
  import P = BlockProver
  import V = BlockVerifier
  import A = BlockAudit

  datatype PredictorArtifact = PredictorArtifact(
    version: nat, publicInput: PublicInput, block: Block, weights: seq<TensorT>,
    tables: seq<ActivationTable>, scales: seq<Scale>, inputs: Inputs, claimedOutput: TensorT)

  const RELATION_PREDICTOR := "pwm.lewm.predictor_step.v1"

  /** The static structure: the root over the ops with their outputs cleared. */
  function ArchitectureCommitment(h: HashFn, block: Block): Digest {
    BlockRoot(h, Skeleton(block.ops))
  }

  const INPUT_LIST: Kind := Vector(Record([U32, I64S]))

  function InputsValue(inputs: Inputs): Value {
    List(seq(|inputs|, i requires 0 <= i < |inputs| => List([Int(inputs[i].0), Ints(inputs[i].1)])))
  }

  function InputsCommitment(h: HashFn, inputs: Inputs): Digest {
    Commit(h, Tag("pwm.pinput.v1"), Enc(INPUT_LIST, InputsValue(inputs)))
  }

  /** Public input, then block witness. */
  function PredictorEntries(h: HashFn, p: PublicInput, ops: seq<BlockOp>, inputs: Inputs): seq<Entry> {
    InitEntries(h, p) + WitnessEntries(h, ops, inputs)
  }

  function PredictorTranscript(h: HashFn, p: PublicInput, ops: seq<BlockOp>, inputs: Inputs): Digest {
    AbsorbAll(h, FsStart(h), PredictorEntries(h, p, ops, inputs))
  }

  // ------------------------------------------------------------------------ prover

  datatype PredictorError = BlockFailed(e: P.BlockError) | OutputError

  function PredictorInput(h: HashFn, block: Block, m: P.Bindings, scales: seq<Scale>, inputs: Inputs, root: Digest,
                          output: TensorT): PublicInput
  {
    PublicInput(
      RelationId(h, RELATION_PREDICTOR),
      ModelCommitment(h, ArchitectureCommitment(h, block), root),
      QuantCommitment(h, scales, m.tables),
      PlannerSentinel(h),
      P0Step,
      Some(InputsCommitment(h, inputs)), None, None, None, None, None,
      OutputCommitment(h, output),
      None, None)
  }

  /** The carried root is bound as given; the output is found by a reverse search. */
  function ProvePredictor(h: HashFn, skeleton: Block, m: P.Bindings, scales: seq<Scale>, inputs: Inputs,
                          ob: OutputBinding, root: Digest):
    Result<PredictorArtifact, PredictorError>
  {
    var proven := P.ProveBlock(skeleton, m, inputs);
    if proven.Err? then Err(BlockFailed(proven.error))
    else
      var block := proven.value;
      var values :- P.LastWriter(block.ops, block.outputBuf).OkOr(BlockFailed(P.MissingBuffer(block.outputBuf)));
      var output :- OutputTensor(ob.tensorId, ob.scaleId, values).OkOr(OutputError);
      Ok(PredictorArtifact(ARTIFACT_VERSION, PredictorInput(h, block, m, scales, inputs, root, output), block,
                           m.weights, m.tables, scales, inputs, output))
  }

  method ProvePredictorRun(h: HashFn, skeleton: Block, m: P.Bindings, scales: seq<Scale>, inputs: Inputs,
                           ob: OutputBinding, root: Digest)
    returns (r: Result<PredictorArtifact, PredictorError>)
    ensures r == ProvePredictor(h, skeleton, m, scales, inputs, ob, root)
  {
    hide P.ProveBlock, OutputTensor, PredictorInput;
    var proven := P.ProveBlockLoop(skeleton, m, inputs);
    if proven.Err? { return Err(BlockFailed(proven.error)); }
    var block := proven.value;
    var values := ReverseFind(block.ops, block.outputBuf);
    if values.None? { return Err(BlockFailed(P.MissingBuffer(block.outputBuf))); }
    var output := OutputTensor(ob.tensorId, ob.scaleId, values.value);
    if output.None? { return Err(OutputError); }
    r := Ok(PredictorArtifact(ARTIFACT_VERSION, PredictorInput(h, block, m, scales, inputs, root, output.value), block,
                              m.weights, m.tables, scales, inputs, output.value));
  }

  /** `ops.iter().rev().find(..)`. */
  method ReverseFind(ops: seq<BlockOp>, id: nat) returns (r: Option<seq<int>>)
    ensures r == P.LastWriter(ops, id)
  {
    assert ops[..|ops|] == ops;
    for i := |ops| downto 0
      invariant P.LastWriter(ops, id) == P.LastWriter(ops[..i], id)
    {
      assert ops[..i + 1][..i] == ops[..i];
      if ops[i].outBuf == id {
        return Some(ops[i].out);
      }
    }
    r := None;
  }

  // ---------------------------------------------------------------------- verifier

  function BindingsOf(a: PredictorArtifact): P.Bindings { P.Bindings(a.weights, a.tables) }

  /** Gates and recomputed commitments, before the audit. */
  function CheckStatement(h: HashFn, a: PredictorArtifact): Result<(), V.VerifyError> {
    var p := a.publicInput;
    var _ :- V.Expect(a.version == ARTIFACT_VERSION, V.UnsupportedArtifactVersion(a.version));
    var _ :- V.Expect(p.relationId == RelationId(h, RELATION_PREDICTOR), V.UnsupportedRelation);
    var _ :- V.Expect(p.statementType == P0Step, V.RelationMismatch);
    var _ :- V.Expect(ModelCommitment(h, ArchitectureCommitment(h, a.block), WeightsRoot(h, a.weights))
                      == p.modelCommitment,
                      V.CommitmentMismatch(V.CommitmentKind.ModelCommitment));
    var _ :- V.Expect(QuantCommitment(h, a.scales, a.tables) == p.quantizationCommitment,
                      V.CommitmentMismatch(V.Quantization));
    var _ :- V.Expect(PlannerSentinel(h) == p.plannerConfigCommitment, V.CommitmentMismatch(V.Planner));
    V.Expect(p.latentHistoryCommitment == Some(InputsCommitment(h, a.inputs)), V.CommitmentMismatch(V.InputsCommitment))
  }

  function CheckOutput(h: HashFn, a: PredictorArtifact, computed: seq<int>): Result<(), V.VerifyError> {
    var _ :- V.Expect(a.claimedOutput.Values() == computed, V.OutputMismatch);
    var rebuilt :- OutputTensor(a.claimedOutput.tensorId, a.claimedOutput.scaleId, computed).OkOr(V.Encoding);
    V.Expect(OutputCommitment(h, rebuilt) == a.publicInput.claimedOutputCommitment, V.OutputCommitmentMismatch)
  }

  function TranscriptOf(h: HashFn, a: PredictorArtifact): Digest {
    PredictorTranscript(h, a.publicInput, a.block.ops, a.inputs)
  }

  function VerifyPredictor(h: HashFn, a: PredictorArtifact): Result<(), V.VerifyError> {
    var _ :- CheckStatement(h, a);
    var computed :- V.AuditBlock(h, a.block, BindingsOf(a), a.inputs, TranscriptOf(h, a));
    CheckOutput(h, a, computed)
  }

  method VerifyPredictorRun(h: HashFn, a: PredictorArtifact) returns (r: Result<(), V.VerifyError>)
    ensures r == VerifyPredictor(h, a)
  {
    hide CheckStatement, CheckOutput, V.AuditBlock;
    var _ :- CheckStatement(h, a);
    var t := new Transcript(h, Ascii("pwm.fs.v1"));
    t.Absorb(Ascii("protocol_version"), LE(1, 8));
    t.Absorb(Ascii("public_input_digest"), PublicDigest(h, a.publicInput));
    OpeningState(h, a.publicInput);
    AbsorbBlockWitness(t, a.block, a.inputs);
    AbsorbAllAppend(h, FsStart(h), InitEntries(h, a.publicInput), WitnessEntries(h, a.block.ops, a.inputs));
    var computed :- V.AuditBlockLoop(a.block, BindingsOf(a), a.inputs, t);
    return CheckOutput(h, a, computed);
  }

  lemma OpeningState(h: HashFn, p: PublicInput)
    ensures AbsorbAll(h, FsStart(h), InitEntries(h, p))
         == AbsorbState(h, AbsorbState(h, FsStart(h), Ascii("protocol_version"), LE(1, 8)),
                        Ascii("public_input_digest"), PublicDigest(h, p))
  {
    var es := InitEntries(h, p);
    var one := es[..1];
    assert AbsorbAll(h, FsStart(h), one)
        == AbsorbState(h, AbsorbAll(h, FsStart(h), one[..0]), one[0].name, one[0].data);
  }

  // --------------------------------------------------------------- what it decides

  /** Every field of the public input that the verifier recomputes. */
  predicate StatementHolds(h: HashFn, a: PredictorArtifact) {
    var p := a.publicInput;
    && a.version == 1 && p.relationId == h(Ascii("pwm.lewm.predictor_step.v1")) && p.statementType == P0Step
    && p.modelCommitment == ModelCommitment(h, BlockRoot(h, Skeleton(a.block.ops)), WeightsRoot(h, a.weights))
    && p.quantizationCommitment == QuantCommitment(h, a.scales, a.tables)
    && p.plannerConfigCommitment == PlannerSentinel(h)
    && p.latentHistoryCommitment == Some(InputsCommitment(h, a.inputs))
  }

  lemma StatementIff(h: HashFn, a: PredictorArtifact)
    ensures CheckStatement(h, a).Ok? <==> StatementHolds(h, a)
  {
    hide WeightsRoot, ModelCommitment, InputsCommitment, QuantCommitment, PlannerSentinel, BlockRoot, Ascii;
  }

  lemma OutputIff(h: HashFn, a: PredictorArtifact, computed: seq<int>)
    ensures CheckOutput(h, a, computed).Ok?
       <==> a.claimedOutput.Values() == computed && OutputBound(h, a.publicInput, a.claimedOutput)
  {
    hide OutputTensor, OutputCommitment;
  }

  /**
   * What acceptance is: every recomputed field agrees, the audit returns the claimed
   * values, and the public input commits to them.
   */
  lemma AcceptedIff(h: HashFn, a: PredictorArtifact)
    ensures VerifyPredictor(h, a).Ok?
       <==> && StatementHolds(h, a) && OutputBound(h, a.publicInput, a.claimedOutput)
            && V.AuditBlock(h, a.block, BindingsOf(a), a.inputs, TranscriptOf(h, a)) == Ok(a.claimedOutput.Values())
  {
    StatementIff(h, a);
    hide V.AuditBlock, CheckStatement, StatementHolds, TranscriptOf, CheckOutput, OutputBound;
    var computed := V.AuditBlock(h, a.block, BindingsOf(a), a.inputs, TranscriptOf(h, a));
    if computed.Ok? { OutputIff(h, a, computed.value); }
  }

  /**
   * An accepted predictor proof: its claimed output is what the prover computes from
   * the committed skeleton on the committed inputs, unless a challenge escaped.
   */
  lemma PredictorSound(h: HashFn, a: PredictorArtifact)
    requires A.AllWellBound(a.block.ops, BindingsOf(a)) && VerifyPredictor(h, a).Ok?
    ensures || A.SomeEscape(h, a.block.ops, BindingsOf(a), P.Seed(a.inputs), TranscriptOf(h, a))
            || A.FinalBuffer(a.block.(ops := Skeleton(a.block.ops)), BindingsOf(a), a.inputs)
                 == Some(a.claimedOutput.Values())
    ensures StatementHolds(h, a) && OutputBound(h, a.publicInput, a.claimedOutput)
  {
    AcceptedIff(h, a);
    hide V.AuditBlock, A.SomeEscape, A.AllWellBound, TranscriptOf, A.FinalBuffer, VerifyPredictor, CheckStatement,
         StatementHolds, OutputBound, P.ProveBlock;
    A.AuditBlockSound(h, a.block, BindingsOf(a), a.inputs, TranscriptOf(h, a));
  }

  /** What a successful proof consists of. */
  lemma ProvedParts(h: HashFn, skeleton: Block, m: P.Bindings, scales: seq<Scale>, inputs: Inputs, ob: OutputBinding,
                    root: Digest, a: PredictorArtifact)
    requires ProvePredictor(h, skeleton, m, scales, inputs, ob, root) == Ok(a)
    ensures P.ProveBlock(skeleton, m, inputs) == Ok(a.block)
    ensures P.LastWriter(a.block.ops, a.block.outputBuf) == Some(a.claimedOutput.Values())
    ensures BindingsOf(a) == m && a.inputs == inputs && CheckOutput(h, a, a.claimedOutput.Values()).Ok?
    ensures CheckStatement(h, a).Ok?
       <==> ModelCommitment(h, ArchitectureCommitment(h, a.block), root)
            == ModelCommitment(h, ArchitectureCommitment(h, a.block), WeightsRoot(h, m.weights))
  {
    hide ArchitectureCommitment, WeightsRoot, ModelCommitment, QuantCommitment, OutputCommitment, InputsCommitment,
         PlannerSentinel, RelationId, P.ProveBlock, P.LastWriter;
    assert a.claimedOutput.scaleId == ob.scaleId;
    hide OutputTensor;
  }

  /** The reverse search finds the final content of the output buffer. */
  lemma ProvedOutput(skeleton: Block, block: Block, m: P.Bindings, inputs: Inputs)
    requires P.ProveBlock(skeleton, m, inputs) == Ok(block) && P.LastWriter(block.ops, block.outputBuf).Some?
    ensures A.FinalBuffer(skeleton, m, inputs) == P.LastWriter(block.ops, block.outputBuf)
  {
    P.LastWriterIsFinal(skeleton.ops, m, P.Seed(inputs), skeleton.outputBuf);
  }

  /**
   * Completeness: a proved predictor artifact is accepted exactly when its ops are
   * inside the guards and the carried weights root yields the recomputed model
   * commitment. The output found by the reverse search is the audited one.
   */
  lemma PredictorComplete(h: HashFn, skeleton: Block, m: P.Bindings, scales: seq<Scale>, inputs: Inputs,
                          ob: OutputBinding, root: Digest, a: PredictorArtifact)
    requires ProvePredictor(h, skeleton, m, scales, inputs, ob, root) == Ok(a) && A.AllInt8Bound(skeleton.ops, m)
    ensures A.FinalBuffer(skeleton, m, inputs) == Some(a.claimedOutput.Values())
    ensures VerifyPredictor(h, a).Ok?
       <==> && A.AllInsideGuards(a.block.ops, m, P.Seed(inputs))
            && ModelCommitment(h, ArchitectureCommitment(h, a.block), root)
               == ModelCommitment(h, ArchitectureCommitment(h, a.block), WeightsRoot(h, m.weights))
  {
    ProvedParts(h, skeleton, m, scales, inputs, ob, root, a);
    ProvedOutput(skeleton, a.block, m, inputs);
    A.AuditBlockComplete(h, skeleton, a.block, m, inputs, TranscriptOf(h, a));
    hide V.AuditBlock, A.AllInsideGuards, A.AllInt8Bound, A.FinalBuffer, TranscriptOf, CheckStatement, CheckOutput,
         ProvePredictor, ModelCommitment, P.ProveBlock, P.LastWriter;
  }

  /** A carried root other than the recomputed one is accepted only with a collision. */
  function CarriedRootClash(h: HashFn, architecture: Digest, root: Digest, recomputed: Digest): (c: Pair)
    requires root != recomputed && ModelCommitment(h, architecture, root)
             == ModelCommitment(h, architecture, recomputed)
    ensures c.Collides(h)
  {
    var v, w := ModelValue(architecture, root), ModelValue(architecture, recomputed);
    assert v.items[1] == Bits(root) && w.items[1] == Bits(recomputed);
    ModelTyped(architecture, root);
    ModelTyped(architecture, recomputed);
    ValueClash(h, Tag("pwm.model.v1"), MODEL_BINDING, v, w)
  }
}
