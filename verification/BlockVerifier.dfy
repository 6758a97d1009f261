/**
 * crates/pwm-verifier/src/lib.rs: `audit_block` walks a proven block over a buffer map,
 * Freivalds-checking the linears under transcript challenges and recomputing the rest.
 */
module BlockVerifier {
  import opened Wrappers
  import opened Arith
  import opened Bytes
  import opened Transcripts
  import opened Matrix
  import opened FixedPoint
  import opened Kernels
  import opened Tensors
  import opened Freivalds
  import opened Blocks
  import P = BlockProver
  import Field

  datatype BindingKind =
    | Weight | WeightShape | BlockWeight | BlockTable | BlockWeightShape | Bias | LayerNormTable | Table

  datatype CommitmentKind = ModelCommitment | Quantization | Planner | InputsCommitment

  datatype VerifyError =
    | UnsupportedArtifactVersion(version: nat)
    | UnsupportedRelation
    | RelationMismatch
    | CommitmentMismatch(which: CommitmentKind)
    | GraphMismatch(index: nat)
    | MissingBinding(kind: BindingKind)
    | PublicInputMismatch
    | WiringMismatch(index: nat)
    | FreivaldsCheckFailed(opId: nat)
    | AccumulatorRange(opId: nat)
    | ExactReplayMismatch(opId: nat)
    | InvalidShift(opId: nat)
    | ActivationDomain(tableId: nat)
    | OutputMismatch
    | OutputCommitmentMismatch
    | Encoding
    | NoCandidates
    | Candidate(index: nat, cause: VerifyError)
    | RolloutStep(step: nat, cause: VerifyError)
    | CostMismatch(index: nat)
    | ArgminViolation
    | RolloutWiring(step: nat)
    | MissingBuffer(buf: nat)
    | BlockOpMismatch(opId: nat)

  // ------------------------------------------------------------ the specification

  const FREIVALDS_R: seq<Byte> := Ascii("freivalds.r")

  /** The weight values the verifier folds into v: each cell cast `as i8`. */
  function CastI8(w: seq<int>): (v: seq<int>)
    ensures |v| == |w| && AllIn(v, -128, 127)
  {
    seq(|w|, i requires 0 <= i < |w| => AsI8(w[i]))
  }

  /** `range_guard_linear` over whole operands. */
  function RangeGuard(opId: nat, cols: nat, x: seq<int>, bias: seq<int>, out: seq<int>): Result<(), VerifyError> {
    if Guarded(cols, x, bias, out) then Ok(()) else Err(AccumulatorRange(opId))
  }

  function BiasOf(m: P.Bindings, biasId: Option<nat>, rows: nat): Result<seq<int>, VerifyError> {
    match biasId
    case None => Ok(Zeros(rows))
    case Some(id) =>
      var t :- FindTensor(m.weights, id).OkOr(MissingBinding(BlockWeight));
      Ok(t.Values())
  }

  /** Every row of a packed sequence passes under one challenge. */
  predicate RowsPass(v: seq<Field.Fp>, x: Mat, bias: seq<int>, r: seq<Field.Fp>, out: Mat)
    requires |x| == |out|
  {
    forall t :: 0 <= t < |x| ==> CheckLinearBiased(v, x[t], bias, r, out[t])
  }

  /** Read entries one by one: the first bad lookup or wrong claim decides the error. */
  function CheckLookups(t: ActivationTable, x: seq<int>, out: seq<int>, wrong: VerifyError): Result<(), VerifyError>
    requires |x| == |out|
  {
    if |x| == 0 then Ok(())
    else
      var n := |x| - 1;
      var _ :- CheckLookups(t, x[..n], out[..n], wrong);
      var e :- t.Eval(x[n]).OkOr(ActivationDomain(t.tableId));
      if e != out[n] then Err(wrong) else Ok(())
  }

  function Expect(ok: bool, e: VerifyError): Result<(), VerifyError> {
    if ok then Ok(()) else Err(e)
  }

  /** Audit one op from transcript state `st`: the next state, or the rejection. */
  function AuditOp(h: HashFn, op: BlockOp, m: P.Bindings, bufs: P.Bufs, st: Digest): Result<Digest, VerifyError> {
    match op
    case Linear(opId, weightId, biasId, inBuf, _, out) =>
      var x :- P.Get(bufs, inBuf).OkOr(MissingBuffer(inBuf));
      var w :- FindTensor(m.weights, weightId).OkOr(MissingBinding(BlockWeight));
      if |w.shape| != 2 then Err(MissingBinding(BlockWeightShape))
      else
        MatrixSize(w);
        var rows, cols := w.shape[0], w.shape[1];
        if |x| != cols || |out| != rows then Err(BlockOpMismatch(opId))
        else
          var bias :- BiasOf(m, biasId, rows);
          var _ :- RangeGuard(opId, cols, x, bias, out);
          var r := ChallengeVec(h, st, FREIVALDS_R, rows);
          var v := Reduced(VOf(r, CastI8(w.Values()), rows, cols));
          if CheckLinearBiased(v, x, bias, r, out) then Ok(SqueezeState(h, st, FREIVALDS_R))
          else Err(FreivaldsCheckFailed(opId))
    case Requant(opId, inBuf, _, out, shift, zeroPoint, lo, hi, rounding) =>
      var x :- P.Get(bufs, inBuf).OkOr(MissingBuffer(inBuf));
      var mode :- FromDiscriminant(rounding).OkOr(BlockOpMismatch(opId));
      if !ValidShift(shift) then Err(InvalidShift(opId))
      else if |x| != |out| || RequantAll(x, shift, zeroPoint, lo, hi, mode) != out then Err(BlockOpMismatch(opId))
      else Ok(st)
    case Activation(opId, tableId, inBuf, _, out) =>
      var x :- P.Get(bufs, inBuf).OkOr(MissingBuffer(inBuf));
      var t :- FindTable(m.tables, tableId).OkOr(MissingBinding(BlockTable));
      if |x| != |out| then Err(BlockOpMismatch(opId))
      else
        var _ :- CheckLookups(t, x, out, BlockOpMismatch(opId));
        Ok(st)
    case LayerNorm(opId, tableId, inBuf, _, out, shift, lo, hi, rounding) =>
      var x :- P.Get(bufs, inBuf).OkOr(MissingBuffer(inBuf));
      var t :- FindTable(m.tables, tableId).OkOr(MissingBinding(BlockTable));
      var mode :- FromDiscriminant(rounding).OkOr(BlockOpMismatch(opId));
      if !ValidShift(shift) then Err(InvalidShift(opId))
      else
        var expected :- Kernels.LayerNorm(x, t, Kernels.Requant(shift, lo, hi, mode)).OkOr(ActivationDomain(tableId));
        if expected != out then Err(BlockOpMismatch(opId)) else Ok(st)
    case Modulate(opId, xBuf, scaleBuf, shiftBuf, _, out, one, shift, lo, hi, rounding) =>
      var x :- P.Get(bufs, xBuf).OkOr(MissingBuffer(xBuf));
      var scale :- P.Get(bufs, scaleBuf).OkOr(MissingBuffer(scaleBuf));
      var offset :- P.Get(bufs, shiftBuf).OkOr(MissingBuffer(shiftBuf));
      var mode :- FromDiscriminant(rounding).OkOr(BlockOpMismatch(opId));
      if |scale| != |x| || |offset| != |x| then Err(BlockOpMismatch(opId))
      else if !ValidShift(shift) then Err(InvalidShift(opId))
      else if ModulateVec(x, scale, offset, one, Kernels.Requant(shift, lo, hi, mode)) != out
      then Err(BlockOpMismatch(opId))
      else Ok(st)
    case Gate(opId, gateBuf, xBuf, _, out, shift, lo, hi, rounding) =>
      var g :- P.Get(bufs, gateBuf).OkOr(MissingBuffer(gateBuf));
      var x :- P.Get(bufs, xBuf).OkOr(MissingBuffer(xBuf));
      var mode :- FromDiscriminant(rounding).OkOr(BlockOpMismatch(opId));
      if |g| != |x| then Err(BlockOpMismatch(opId))
      else if !ValidShift(shift) then Err(InvalidShift(opId))
      else if GateVec(g, x, Kernels.Requant(shift, lo, hi, mode)) != out then Err(BlockOpMismatch(opId))
      else Ok(st)
    case Add(opId, aBuf, bBuf, _, out) =>
      var a :- P.Get(bufs, aBuf).OkOr(MissingBuffer(aBuf));
      var b :- P.Get(bufs, bBuf).OkOr(MissingBuffer(bBuf));
      if |a| != |b| || ResidualAdd(a, b) != out then Err(BlockOpMismatch(opId)) else Ok(st)
    case MatMul(opId, aBuf, bBuf, _, out, rows, inner, cols, transposeB) =>
      var a :- P.Get(bufs, aBuf).OkOr(MissingBuffer(aBuf));
      var b :- P.Get(bufs, bBuf).OkOr(MissingBuffer(bBuf));
      var expected :- Kernels.MatMul(a, b, rows, inner, cols, transposeB).OkOr(BlockOpMismatch(opId));
      if expected != out then Err(BlockOpMismatch(opId)) else Ok(st)
    case Softmax(opId, tableId, inBuf, _, out, rowLen, one) =>
      var x :- P.Get(bufs, inBuf).OkOr(MissingBuffer(inBuf));
      var t :- FindTable(m.tables, tableId).OkOr(MissingBinding(BlockTable));
      var expected :- SoftmaxRows(x, rowLen, t, one).OkOr(ActivationDomain(tableId));
      if expected != out then Err(BlockOpMismatch(opId)) else Ok(st)
    case Slice(opId, inBuf, _, start, len, out) =>
      var x :- P.Get(bufs, inBuf).OkOr(MissingBuffer(inBuf));
      if start + len > |x| || x[start..start + len] != out then Err(BlockOpMismatch(opId)) else Ok(st)
    case Concat(opId, inBufs, _, out) =>
      var expected := P.ConcatBufs(bufs, inBufs);
      if expected.Err? then Err(MissingBuffer(expected.error))
      else if expected.value != out then Err(BlockOpMismatch(opId))
      else Ok(st)
    case BatchedLinear(opId, weightId, biasId, inBuf, _, out, seqLen) =>
      var x :- P.Get(bufs, inBuf).OkOr(MissingBuffer(inBuf));
      var w :- FindTensor(m.weights, weightId).OkOr(MissingBinding(BlockWeight));
      if |w.shape| != 2 then Err(MissingBinding(BlockWeightShape))
      else
        MatrixSize(w);
        var rows, cols := w.shape[0], w.shape[1];
        if |x| != seqLen * cols || |out| != seqLen * rows then Err(BlockOpMismatch(opId))
        else
          var bias :- BiasOf(m, biasId, rows);
          var _ :- RangeGuard(opId, cols, x, bias, out);
          var r := ChallengeVec(h, st, FREIVALDS_R, rows);
          var v := Reduced(VOf(r, CastI8(w.Values()), rows, cols));
          if RowsPass(v, Rows(x, seqLen, cols), bias, r, Rows(out, seqLen, rows))
          then Ok(SqueezeState(h, st, FREIVALDS_R))
          else Err(FreivaldsCheckFailed(opId))
  }

  type Walk = Result<(P.Bufs, Digest), VerifyError>

  /** The walk: each op's claimed output becomes the content of its buffer. */
  function AuditOps(h: HashFn, ops: seq<BlockOp>, m: P.Bindings, bufs: P.Bufs, st: Digest): Walk {
    if |ops| == 0 then Ok((bufs, st))
    else
      var n := |ops| - 1;
      var (bufs', st') :- AuditOps(h, ops[..n], m, bufs, st);
      var st'' :- AuditOp(h, ops[n], m, bufs', st');
      Ok((bufs'[ops[n].outBuf := ops[n].out], st''))
  }

  function AuditBlock(h: HashFn, block: Block, m: P.Bindings, inputs: Inputs,
                      st: Digest): Result<seq<int>, VerifyError>
  {
    var (bufs, _) :- AuditOps(h, block.ops, m, P.Seed(inputs), st);
    P.Get(bufs, block.outputBuf).OkOr(MissingBuffer(block.outputBuf))
  }

  function BlockTranscript(h: HashFn, block: Block, inputs: Inputs): Digest {
    AbsorbAll(h, InitState(h, Ascii("pwm.block.v1")), WitnessEntries(h, block.ops, inputs))
  }

  function VerifyBlock(h: HashFn, block: Block, m: P.Bindings, inputs: Inputs): Result<seq<int>, VerifyError> {
    AuditBlock(h, block, m, inputs, BlockTranscript(h, block, inputs))
  }

  // ----------------------------------------------------- the imperative verifier

  method CheckLookupsLoop(t: ActivationTable, x: seq<int>, out: seq<int>, wrong: VerifyError)
    returns (r: Result<(), VerifyError>)
    requires |x| == |out|
    ensures r == CheckLookups(t, x, out, wrong)
  {
    for i := 0 to |x|
      invariant CheckLookups(t, x[..i], out[..i], wrong).Ok?
    {
      assert x[..i + 1][..i] == x[..i] && out[..i + 1][..i] == out[..i];
      var e := t.Eval(x[i]);
      if e.None? {
        LookupsStuck(t, x, out, wrong, i + 1);
        return Err(ActivationDomain(t.tableId));
      }
      if e.value != out[i] {
        LookupsStuck(t, x, out, wrong, i + 1);
        return Err(wrong);
      }
    }
    assert x[..|x|] == x && out[..|x|] == out;
    r := Ok(());
  }

  lemma {:induction false} LookupsStuck(t: ActivationTable, x: seq<int>, out: seq<int>, wrong: VerifyError, i: nat)
    requires |x| == |out| && i <= |x| && CheckLookups(t, x[..i], out[..i], wrong).Err?
    ensures CheckLookups(t, x, out, wrong) == CheckLookups(t, x[..i], out[..i], wrong)
  {
    if i < |x| {
      var n := |x| - 1;
      assert x[..n][..i] == x[..i] && out[..n][..i] == out[..i];
      LookupsStuck(t, x[..n], out[..n], wrong, i);
    } else {
      assert x[..i] == x && out[..i] == out;
    }
  }

  method CheckRows(v: seq<Field.Fp>, x: seq<int>, bias: seq<int>, r: seq<Field.Fp>, out: seq<int>, s: nat, rows: nat,
                   cols: nat)
    returns (ok: bool)
    requires |x| == s * cols && |out| == s * rows
    ensures ok == RowsPass(v, Rows(x, s, cols), bias, r, Rows(out, s, rows))
  {
    hide Rows, CheckLinearBiased, Flatten;
    ghost var xm, om := Rows(x, s, cols), Rows(out, s, rows);
    FlattenRows(x, s, cols);
    FlattenRows(out, s, rows);
    for t := 0 to s
      invariant forall u :: 0 <= u < t ==> CheckLinearBiased(v, xm[u], bias, r, om[u])
    {
      RowBounds(t, s, cols);
      RowBounds(t, s, rows);
      FlattenRow(xm, s, cols, t);
      FlattenRow(om, s, rows, t);
      var xs, os := t * cols, t * rows;
      var pass := CheckLinear(v, x[xs..xs + cols], bias, r, out[os..os + rows]);
      if !pass {
        return false;
      }
    }
    ok := true;
  }

  /** Draw `r` from the transcript and fold it into `v`. */
  method DrawChallenge(t: Transcript, w: seq<int>, rows: nat, cols: nat) returns (r: seq<Field.Fp>, v: seq<Field.Fp>)
    requires |w| == rows * cols
    modifies t
    ensures t.state == SqueezeState(t.h, old(t.state), FREIVALDS_R)
    ensures r == ChallengeVec(t.h, old(t.state), FREIVALDS_R, rows) && v == Reduced(VOf(r, CastI8(w), rows, cols))
  {
    r := t.ChallengeFp61Vec(FREIVALDS_R, rows);
    v := PrecomputeV(r, CastI8(w), rows, cols);
  }

  method AuditOneOp(op: BlockOp, m: P.Bindings, bufs: P.Bufs, t: Transcript) returns (r: Result<(), VerifyError>)
    modifies t
    ensures var spec := AuditOp(t.h, op, m, bufs, old(t.state));
            if spec.Ok? then r == Ok(()) && t.state == spec.value else r == Err(spec.error)
  {
    hide FindTensor, FindTable, ChallengeVec, SqueezeState, VOf, Kernels.MatMul, SoftmaxRows;
    match op
    case Linear(opId, weightId, biasId, inBuf, _, out) =>
      var x :- P.Get(bufs, inBuf).OkOr(MissingBuffer(inBuf));
      var w :- FindTensor(m.weights, weightId).OkOr(MissingBinding(BlockWeight));
      if |w.shape| != 2 { return Err(MissingBinding(BlockWeightShape)); }
      MatrixSize(w);
      var rows, cols := w.shape[0], w.shape[1];
      if |x| != cols || |out| != rows { return Err(BlockOpMismatch(opId)); }
      var bias :- BiasOf(m, biasId, rows);
      var _ :- RangeGuard(opId, cols, x, bias, out);
      var ch, v := DrawChallenge(t, w.Values(), rows, cols);
      var ok := CheckLinear(v, x, bias, ch, out);
      return Expect(ok, FreivaldsCheckFailed(opId));
    case Activation(opId, tableId, inBuf, _, out) =>
      var x :- P.Get(bufs, inBuf).OkOr(MissingBuffer(inBuf));
      var tab :- FindTable(m.tables, tableId).OkOr(MissingBinding(BlockTable));
      if |x| != |out| { return Err(BlockOpMismatch(opId)); }
      r := CheckLookupsLoop(tab, x, out, BlockOpMismatch(opId));
    case MatMul(opId, aBuf, bBuf, _, out, rows, inner, cols, transposeB) =>
      var a :- P.Get(bufs, aBuf).OkOr(MissingBuffer(aBuf));
      var b :- P.Get(bufs, bBuf).OkOr(MissingBuffer(bBuf));
      var expected := ComputeMatMul(a, b, rows, inner, cols, transposeB);
      return Expect(expected == Some(out), BlockOpMismatch(opId));
    case Softmax(opId, tableId, inBuf, _, out, rowLen, one) =>
      var x :- P.Get(bufs, inBuf).OkOr(MissingBuffer(inBuf));
      var tab :- FindTable(m.tables, tableId).OkOr(MissingBinding(BlockTable));
      var expected := ComputeSoftmaxRows(x, rowLen, tab, one);
      if expected.None? { return Err(ActivationDomain(tableId)); }
      return Expect(expected.value == out, BlockOpMismatch(opId));
    case Concat(opId, inBufs, _, out) =>
      var expected := P.ConcatLoop(bufs, inBufs);
      if expected.Err? { return Err(MissingBuffer(expected.error)); }
      return Expect(expected.value == out, BlockOpMismatch(opId));
    case BatchedLinear(opId, weightId, biasId, inBuf, _, out, seqLen) =>
      var x :- P.Get(bufs, inBuf).OkOr(MissingBuffer(inBuf));
      var w :- FindTensor(m.weights, weightId).OkOr(MissingBinding(BlockWeight));
      if |w.shape| != 2 { return Err(MissingBinding(BlockWeightShape)); }
      MatrixSize(w);
      var rows, cols := w.shape[0], w.shape[1];
      if |x| != seqLen * cols || |out| != seqLen * rows { return Err(BlockOpMismatch(opId)); }
      var bias :- BiasOf(m, biasId, rows);
      var _ :- RangeGuard(opId, cols, x, bias, out);
      var ch, v := DrawChallenge(t, w.Values(), rows, cols);
      var ok := CheckRows(v, x, bias, ch, out, seqLen, rows, cols);
      return Expect(ok, FreivaldsCheckFailed(opId));
    case _ =>
      var step := AuditOp(t.h, op, m, bufs, t.state);
      if step.Err? { return Err(step.error); }
      return Ok(());
  }

  method AuditBlockLoop(block: Block, m: P.Bindings, inputs: Inputs, t: Transcript)
    returns (r: Result<seq<int>, VerifyError>)
    modifies t
    ensures r == AuditBlock(t.h, block, m, inputs, old(t.state))
  {
    var bufs := P.SeedBufs(inputs);
    ghost var h, st, seeded := t.h, t.state, bufs;
    for i := 0 to |block.ops|
      invariant AuditOps(h, block.ops[..i], m, seeded, st) == Ok((bufs, t.state))
    {
      var op := block.ops[i];
      assert block.ops[..i + 1][..i] == block.ops[..i];
      var step := AuditOneOp(op, m, bufs, t);
      if step.Err? {
        WalkStuck(h, block.ops, m, seeded, st, i + 1);
        return Err(step.error);
      }
      bufs := bufs[op.outBuf := op.out];
    }
    assert block.ops[..|block.ops|] == block.ops;
    r := P.Get(bufs, block.outputBuf).OkOr(MissingBuffer(block.outputBuf));
  }

  lemma {:induction false} WalkStuck(h: HashFn, ops: seq<BlockOp>, m: P.Bindings, bufs: P.Bufs, st: Digest, i: nat)
    requires i <= |ops| && AuditOps(h, ops[..i], m, bufs, st).Err?
    ensures AuditOps(h, ops, m, bufs, st) == Err(AuditOps(h, ops[..i], m, bufs, st).error)
  {
    if i < |ops| {
      assert ops[..|ops| - 1][..i] == ops[..i];
      WalkStuck(h, ops[..|ops| - 1], m, bufs, st, i);
    } else {
      assert ops[..i] == ops;
    }
  }

  /** `verify_block`: the transcript is built here, from the block itself. */
  method VerifyBlockRun(h: HashFn, block: Block, m: P.Bindings, inputs: Inputs)
    returns (r: Result<seq<int>, VerifyError>)
    ensures r == VerifyBlock(h, block, m, inputs)
  {
    var t := new Transcript(h, Ascii("pwm.block.v1"));
    AbsorbBlockWitness(t, block, inputs);
    r := AuditBlockLoop(block, m, inputs, t);
  }
}
