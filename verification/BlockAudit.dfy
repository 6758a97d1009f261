/**
 * The block audit decides exactly the prover's runs: an accepted block is the exact
 * run of its skeleton unless some challenge escaped, and an honest run is accepted
 * exactly when its operands and shifts are inside the guards.
 */
module BlockAudit {
  import opened Wrappers
  import opened Arith
  import opened Bytes
  import opened Transcripts
  import opened Matrix
  import opened FixedPoint
  import opened Kernels
  import opened Tensors
  import opened Freivalds
  import opened Soundness
  import opened Blocks
  import opened BlockVerifier
  import P = BlockProver
  import Field

  /** int8 weights, which the verifier's cast leaves alone: all that completeness needs. */
  predicate Int8Bound(op: BlockOp, m: P.Bindings) {
    (op.Linear? || op.BatchedLinear?) ==>
      var w := FindTensor(m.weights, op.weightId);
      (w.Some? && |w.value.shape| == 2) ==> Int8(w.value.Values())
  }

  predicate AllInt8Bound(ops: seq<BlockOp>, m: P.Bindings) {
    forall i :: 0 <= i < |ops| ==> Int8Bound(ops[i], m)
  }

  /** For soundness also: weights within the guard's reach, and biases covering every output row. */
  predicate WellBound(op: BlockOp, m: P.Bindings) {
    && Int8Bound(op, m)
    && ((op.Linear? || op.BatchedLinear?) ==>
          var w := FindTensor(m.weights, op.weightId);
          (w.Some? && |w.value.shape| == 2) ==>
            && GuardCovers(w.value.Values(), w.value.shape[1])
            && (op.biasId.Some? ==>
                  var b := FindTensor(m.weights, op.biasId.value);
                  b.Some? ==> |b.value.data| >= w.value.shape[0]))
  }

  predicate AllWellBound(ops: seq<BlockOp>, m: P.Bindings) {
    forall i :: 0 <= i < |ops| ==> WellBound(ops[i], m)
  }

  // ------------------------------------------------------------- escaping a check

  /** A guarded wrong accumulator, accepted because of the challenge drawn. */
  ghost predicate RowEscapes(r: seq<int>, w: seq<int>, x: seq<int>, bias: seq<int>, out: seq<int>, rows: nat,
                             cols: nat)
  {
    && |w| == rows * cols && |x| == cols && |bias| == rows && |out| == rows
    && Int8(w) && GuardCovers(w, cols) && Guarded(cols, x, bias, out)
    && out != Kernels.Linear(w, x, bias, rows, cols)
    && Accepts(r, w, x, bias, out, rows, cols)
  }

  /** A challenge that escapes is one of p^(rows-1) among p^rows. */
  lemma EscapesAreRare(r: seq<int>, w: seq<int>, x: seq<int>, bias: seq<int>, out: seq<int>, rows: nat, cols: nat)
    requires RowEscapes(r, w, x, bias, out, rows, cols)
    ensures |ChallengeSpace(rows)| == Pow(Field.P, rows) && rows >= 1
    ensures var escaping := set s: seq<int> | s in ChallengeSpace(rows) && RowEscapes(s, w, x, bias, out, rows, cols);
            r in escaping && |escaping| == Pow(Field.P, rows - 1)
  {
    EscapeCount(w, x, bias, out, rows, cols);
    InChallengeSpace(rows, r);
    var escaping := set s: seq<int> | s in ChallengeSpace(rows) && RowEscapes(s, w, x, bias, out, rows, cols);
    var accepting := set s: seq<int> | s in ChallengeSpace(rows) && Accepts(s, w, x, bias, out, rows, cols);
    assert escaping == accepting;
  }

  /** The challenge drawn for this op from state `st` escapes on one of its rows. */
  ghost predicate Escapes(h: HashFn, op: BlockOp, m: P.Bindings, bufs: P.Bufs, st: Digest) {
    && (op.Linear? || op.BatchedLinear?)
    && op.inBuf in bufs && FindTensor(m.weights, op.weightId).Some?
    && var w := FindTensor(m.weights, op.weightId).value;
    && |w.shape| == 2
    && var rows, cols := w.shape[0], w.shape[1];
    && var bias := BiasOf(m, op.biasId, rows);
    && bias.Ok? && |bias.value| >= rows
    && var x := bufs[op.inBuf];
    && var r := ChallengeVec(h, st, FREIVALDS_R, rows);
    && if op.Linear? then RowEscapes(r, w.Values(), x, bias.value[..rows], op.out, rows, cols)
       else
         && |x| == op.seqLen * cols && |op.out| == op.seqLen * rows
         && exists t :: 0 <= t < op.seqLen
              && RowEscapes(r, w.Values(), Rows(x, op.seqLen, cols)[t], bias.value[..rows],
                            Rows(op.out, op.seqLen, rows)[t], rows, cols)
  }

  // -------------------------------------------------------------- one op, audited

  lemma CastIsIdentity(w: seq<int>)
    requires Int8(w)
    ensures CastI8(w) == w
  {
    forall i | 0 <= i < |w| ensures CastI8(w)[i] == w[i] { AsI8Identity(w[i]); }
  }

  /** Bias entries past the output length are paired with nothing. */
  lemma LongBias(v: seq<Field.Fp>, x: seq<int>, bias: seq<int>, r: seq<Field.Fp>, out: seq<int>)
    requires |bias| >= |r| && WithinOperandBound(bias)
    ensures CheckLinearBiased(v, x, bias, r, out) <==> CheckLinearBiased(v, x, bias[..|r|], r, out)
  {
    DotNExt(r, bias, r, bias[..|r|], |r|);
  }

  /** One row accepted under the challenge: exact, or an escape. */
  lemma RowSound(w: seq<int>, x: seq<int>, bias: seq<int>, r: seq<Field.Fp>, out: seq<int>, rows: nat, cols: nat)
    requires |w| == rows * cols && |x| == cols && |bias| >= rows == |out| && |r| == rows
    requires Int8(w) && GuardCovers(w, cols)
    requires CheckLinearBiased(Reduced(VOf(r, w, rows, cols)), x, bias, r, out)
    ensures out == Kernels.Linear(w, x, bias[..rows], rows, cols) || RowEscapes(r, w, x, bias[..rows], out, rows, cols)
  {
    LongBias(Reduced(VOf(r, w, rows, cols)), x, bias, r, out);
  }

  lemma LinearSound(h: HashFn, op: BlockOp, m: P.Bindings, bufs: P.Bufs, st: Digest)
    requires op.Linear? && WellBound(op, m) && AuditOp(h, op, m, bufs, st).Ok?
    ensures P.ProveOp(op, m, bufs) == Ok(op.out) || Escapes(h, op, m, bufs, st)
  {
    var w := FindTensor(m.weights, op.weightId).value;
    MatrixSize(w);
    var rows, cols := w.shape[0], w.shape[1];
    var x, bias := bufs[op.inBuf], BiasOf(m, op.biasId, rows).value;
    var r := ChallengeVec(h, st, FREIVALDS_R, rows);
    CastIsIdentity(w.Values());
    RowSound(w.Values(), x, bias, r, op.out, rows, cols);
  }

  /** Rows all accepted under one challenge: all exact, or one escapes. */
  lemma RowsSound(w: seq<int>, x: Mat, bias: seq<int>, r: seq<Field.Fp>, out: Mat, s: nat, rows: nat, cols: nat)
    requires |w| == rows * cols && IsMat(x, s, cols) && IsMat(out, s, rows) && |bias| >= rows && |r| == rows
    requires Int8(w) && GuardCovers(w, cols)
    requires RowsPass(Reduced(VOf(r, w, rows, cols)), x, bias, r, out)
    ensures out == LinearMat(w, x, bias[..rows], rows, cols)
         || exists t :: 0 <= t < s && RowEscapes(r, w, x[t], bias[..rows], out[t], rows, cols)
  {
    if !exists t :: 0 <= t < s && RowEscapes(r, w, x[t], bias[..rows], out[t], rows, cols) {
      forall t | 0 <= t < s ensures out[t] == Kernels.Linear(w, x[t], bias[..rows], rows, cols) {
        RowSound(w, x[t], bias, r, out[t], rows, cols);
      }
    }
  }

  /** The operands of a batched linear, once every lookup and shape test has passed. */
  ghost predicate Operands(op: BlockOp, m: P.Bindings, bufs: P.Bufs, w: seq<int>, x: seq<int>, bias: seq<int>,
                           rows: nat, cols: nat)
    requires op.BatchedLinear?
  {
    && P.Get(bufs, op.inBuf) == Some(x) && |x| == op.seqLen * cols
    && |w| == rows * cols
    && BiasOf(m, op.biasId, rows) == Ok(bias)
    && var t := FindTensor(m.weights, op.weightId);
       t.Some? && t.value.shape == [rows, cols] && t.value.Values() == w
  }

  lemma OperandsFound(op: BlockOp, m: P.Bindings, bufs: P.Bufs) returns (w: seq<int>, x: seq<int>, bias: seq<int>,
        rows: nat, cols: nat)
    requires op.BatchedLinear? && op.inBuf in bufs
    requires FindTensor(m.weights, op.weightId).Some? && |FindTensor(m.weights, op.weightId).value.shape| == 2
    requires BiasOf(m, op.biasId, FindTensor(m.weights, op.weightId).value.shape[0]).Ok?
    requires |bufs[op.inBuf]| == op.seqLen * FindTensor(m.weights, op.weightId).value.shape[1]
    ensures Operands(op, m, bufs, w, x, bias, rows, cols)
  {
    var t := FindTensor(m.weights, op.weightId).value;
    MatrixSize(t);
    rows, cols := t.shape[0], t.shape[1];
    w, x, bias := t.Values(), bufs[op.inBuf], BiasOf(m, op.biasId, rows).value;
    assert t.shape == [rows, cols];
  }

  /** What the audit of a batched linear comes down to. */
  lemma BatchedAudit(h: HashFn, op: BlockOp, m: P.Bindings, bufs: P.Bufs, st: Digest, w: seq<int>, x: seq<int>,
                     bias: seq<int>, rows: nat, cols: nat)
    requires op.BatchedLinear? && Operands(op, m, bufs, w, x, bias, rows, cols) && Int8(w)
    ensures AuditOp(h, op, m, bufs, st).Ok?
       <==> (&& |op.out| == op.seqLen * rows && Guarded(cols, x, bias, op.out)
             && var r := ChallengeVec(h, st, FREIVALDS_R, rows);
                RowsPass(Reduced(VOf(r, w, rows, cols)), Rows(x, op.seqLen, cols), bias, r,
                         Rows(op.out, op.seqLen, rows)))
  {
    CastIsIdentity(w);
  }

  /** What proving a batched linear comes down to. */
  lemma BatchedProve(op: BlockOp, m: P.Bindings, bufs: P.Bufs, w: seq<int>, x: seq<int>, bias: seq<int>, rows: nat,
                     cols: nat)
    requires op.BatchedLinear? && Operands(op, m, bufs, w, x, bias, rows, cols) && |bias| >= rows
    ensures P.ProveOp(op, m, bufs) == Ok(LinearRows(w, x, bias[..rows], op.seqLen, rows, cols))
  {
  }

  lemma BatchedSound(h: HashFn, op: BlockOp, m: P.Bindings, bufs: P.Bufs, st: Digest)
    requires op.BatchedLinear? && WellBound(op, m) && AuditOp(h, op, m, bufs, st).Ok?
    ensures P.ProveOp(op, m, bufs) == Ok(op.out) || Escapes(h, op, m, bufs, st)
  {
    var w, x, bias, rows, cols := OperandsFound(op, m, bufs);
    var s, r := op.seqLen, ChallengeVec(h, st, FREIVALDS_R, rows);
    BatchedAudit(h, op, m, bufs, st, w, x, bias, rows, cols);
    RowsSound(w, Rows(x, s, cols), bias, r, Rows(op.out, s, rows), s, rows, cols);
    FlattenRows(op.out, s, rows);
    BatchedProve(op, m, bufs, w, x, bias, rows, cols);
  }

  lemma {:induction false} LookupsSound(t: ActivationTable, x: seq<int>, out: seq<int>, wrong: VerifyError)
    requires |x| == |out|
    ensures CheckLookups(t, x, out, wrong).Ok? <==> EvalAll(t, x) == Some(out)
  {
    if |x| != 0 {
      var n := |x| - 1;
      LookupsSound(t, x[..n], out[..n], wrong);
      assert out == out[..n] + [out[n]];
      if EvalAll(t, x) == Some(out) {
        assert out[..n] == EvalAll(t, x[..n]).value;
      }
    } else {
      assert out == [];
    }
  }

  /** An op recomputed exactly is accepted only with the prover's own output. */
  lemma ExactSound(h: HashFn, op: BlockOp, m: P.Bindings, bufs: P.Bufs, st: Digest)
    requires !op.Linear? && !op.BatchedLinear? && AuditOp(h, op, m, bufs, st).Ok?
    ensures P.ProveOp(op, m, bufs) == Ok(op.out) && AuditOp(h, op, m, bufs, st) == Ok(st)
  {
    if op.Activation? {
      LookupsSound(FindTable(m.tables, op.tableId).value, bufs[op.inBuf], op.out, BlockOpMismatch(op.opId));
    }
  }

  lemma OpSound(h: HashFn, op: BlockOp, m: P.Bindings, bufs: P.Bufs, st: Digest)
    requires WellBound(op, m) && AuditOp(h, op, m, bufs, st).Ok?
    ensures P.ProveOp(op, m, bufs) == Ok(op.out) || Escapes(h, op, m, bufs, st)
  {
    if op.Linear? {
      LinearSound(h, op, m, bufs, st);
    } else if op.BatchedLinear? {
      BatchedSound(h, op, m, bufs, st);
    } else {
      ExactSound(h, op, m, bufs, st);
    }
  }

  // ------------------------------------------------------------- audit soundness

  /** Some op's challenge escapes, everything before it being exact. */
  ghost predicate SomeEscape(h: HashFn, ops: seq<BlockOp>, m: P.Bindings, bufs: P.Bufs, st: Digest) {
    |ops| > 0 &&
    var n := |ops| - 1;
    var walk := AuditOps(h, ops[..n], m, bufs, st);
    || SomeEscape(h, ops[..n], m, bufs, st)
    || (walk.Ok? && P.ProveOps(ops[..n], m, bufs) == Ok((ops[..n], walk.value.0))
        && Escapes(h, ops[n], m, walk.value.0, walk.value.1))
  }

  /**
   * If the walk accepts, the exact prover run on the same ops succeeds, reproduces
   * every claimed output and ends with the same buffers, unless a challenge escaped.
   */
  lemma {:induction false} AuditSound(h: HashFn, ops: seq<BlockOp>, m: P.Bindings, bufs: P.Bufs, st: Digest)
    requires AllWellBound(ops, m) && AuditOps(h, ops, m, bufs, st).Ok?
    ensures SomeEscape(h, ops, m, bufs, st)
         || P.ProveOps(ops, m, bufs) == Ok((ops, AuditOps(h, ops, m, bufs, st).value.0))
  {
    if |ops| != 0 {
      var n := |ops| - 1;
      AuditSound(h, ops[..n], m, bufs, st);
      var (bufs', st') := AuditOps(h, ops[..n], m, bufs, st).value;
      OpSound(h, ops[n], m, bufs', st');
      if P.ProveOps(ops[..n], m, bufs) == Ok((ops[..n], bufs')) && P.ProveOp(ops[n], m, bufs') == Ok(ops[n].out) {
        ExactStep(ops, m, bufs, bufs');
      }
    }
  }

  lemma SelfSet(op: BlockOp)
    ensures op.SetOut(op.out) == op
  {
  }

  /** One more op that reproduces its claim. */
  lemma ExactStep(ops: seq<BlockOp>, m: P.Bindings, bufs: P.Bufs, bufs': P.Bufs)
    requires |ops| > 0 && P.ProveOps(ops[..|ops| - 1], m, bufs) == Ok((ops[..|ops| - 1], bufs'))
    requires P.ProveOp(ops[|ops| - 1], m, bufs') == Ok(ops[|ops| - 1].out)
    ensures P.ProveOps(ops, m, bufs) == Ok((ops, bufs'[ops[|ops| - 1].outBuf := ops[|ops| - 1].out]))
  {
    hide *;
    var op := ops[|ops| - 1];
    SelfSet(op);
    P.RunSnoc(ops, m, bufs, ops[..|ops| - 1], bufs', op.out);
    assert ops == ops[..|ops| - 1] + [op];
  }

  /**
   * An audited block is what prove_block computes from its skeleton, and the value
   * returned is the final content of the output buffer, whatever transcript state the
   * challenges came from.
   */
  lemma AuditBlockSound(h: HashFn, block: Block, m: P.Bindings, inputs: Inputs, st: Digest)
    requires AllWellBound(block.ops, m) && AuditBlock(h, block, m, inputs, st).Ok?
    ensures var skeleton := block.(ops := Skeleton(block.ops));
            || SomeEscape(h, block.ops, m, P.Seed(inputs), st)
            || (&& P.ProveBlock(skeleton, m, inputs) == Ok(block)
                && FinalBuffer(skeleton, m, inputs) == Some(AuditBlock(h, block, m, inputs, st).value))
  {
    AuditSound(h, block.ops, m, P.Seed(inputs), st);
    P.ClaimsIgnored(block.ops, m, P.Seed(inputs));
  }

  /** verify_block, in particular. */
  lemma BlockSound(h: HashFn, block: Block, m: P.Bindings, inputs: Inputs)
    requires AllWellBound(block.ops, m) && VerifyBlock(h, block, m, inputs).Ok?
    ensures var skeleton := block.(ops := Skeleton(block.ops));
            || SomeEscape(h, block.ops, m, P.Seed(inputs), BlockTranscript(h, block, inputs))
            || (&& P.ProveBlock(skeleton, m, inputs) == Ok(block)
                && FinalBuffer(skeleton, m, inputs) == Some(VerifyBlock(h, block, m, inputs).value))
  {
    AuditBlockSound(h, block, m, inputs, BlockTranscript(h, block, inputs));
  }

  /** What the exact run leaves in the output buffer. */
  function FinalBuffer(block: Block, m: P.Bindings, inputs: Inputs): Option<seq<int>> {
    var run := P.ProveOps(block.ops, m, P.Seed(inputs));
    if run.Err? then None else P.Get(run.value.1, block.outputBuf)
  }

  // --------------------------------------------------------------- completeness

  /** The guards an honest op has to be inside of: shift at most 62, operands in range. */
  predicate InsideGuards(op: BlockOp, m: P.Bindings, bufs: P.Bufs) {
    && ((op.Requant? || op.LayerNorm? || op.Modulate? || op.Gate?) ==> ValidShift(op.shift))
    && ((op.Linear? || op.BatchedLinear?) ==>
          var w := FindTensor(m.weights, op.weightId);
          (op.inBuf in bufs && w.Some? && |w.value.shape| == 2) ==>
            var bias := BiasOf(m, op.biasId, w.value.shape[0]);
            bias.Ok? ==> Guarded(w.value.shape[1], bufs[op.inBuf], bias.value, op.out))
  }

  lemma HonestRow(w: seq<int>, x: seq<int>, bias: seq<int>, r: seq<Field.Fp>, rows: nat, cols: nat)
    requires |w| == rows * cols && |x| == cols && |bias| >= rows && |r| == rows
    requires Guarded(cols, x, bias, Kernels.Linear(w, x, bias[..rows], rows, cols))
    ensures CheckLinearBiased(Reduced(VOf(r, w, rows, cols)), x, bias, r,
                              Kernels.Linear(w, x, bias[..rows], rows, cols))
  {
    var out := Kernels.Linear(w, x, bias[..rows], rows, cols);
    HonestAccepted(w, x, bias[..rows], r, rows, cols);
    LongBias(Reduced(VOf(r, w, rows, cols)), x, bias, r, out);
  }

  lemma HonestLinear(h: HashFn, op: BlockOp, m: P.Bindings, bufs: P.Bufs, st: Digest)
    requires op.Linear? && Int8Bound(op, m) && P.ProveOp(op, m, bufs) == Ok(op.out)
    ensures AuditOp(h, op, m, bufs, st).Ok? <==> InsideGuards(op, m, bufs)
  {
    var w := FindTensor(m.weights, op.weightId).value;
    MatrixSize(w);
    var rows, cols := w.shape[0], w.shape[1];
    var x, bias := bufs[op.inBuf], BiasOf(m, op.biasId, rows).value;
    CastIsIdentity(w.Values());
    if Guarded(cols, x, bias, op.out) {
      HonestRow(w.Values(), x, bias, ChallengeVec(h, st, FREIVALDS_R, rows), rows, cols);
    }
  }

  lemma RowWithin(x: seq<int>, s: nat, cols: nat, t: nat)
    requires |x| == s * cols && t < s && WithinOperandBound(x)
    ensures WithinOperandBound(Rows(x, s, cols)[t])
  {
    FlattenRows(x, s, cols);
    FlattenRow(Rows(x, s, cols), s, cols, t);
  }

  lemma HonestRows(w: seq<int>, x: seq<int>, bias: seq<int>, r: seq<Field.Fp>, s: nat, rows: nat, cols: nat)
    requires |w| == rows * cols && |x| == s * cols && |bias| >= rows && |r| == rows
    requires Guarded(cols, x, bias, LinearRows(w, x, bias[..rows], s, rows, cols))
    ensures var out := LinearRows(w, x, bias[..rows], s, rows, cols);
            |out| == s * rows && RowsPass(Reduced(VOf(r, w, rows, cols)), Rows(x, s, cols), bias, r, Rows(out, s, rows))
  {
    var out, xm := LinearRows(w, x, bias[..rows], s, rows, cols), Rows(x, s, cols);
    RowsFlatten(LinearMat(w, xm, bias[..rows], rows, cols), s, rows);
    forall t | 0 <= t < s
      ensures CheckLinearBiased(Reduced(VOf(r, w, rows, cols)), xm[t], bias, r, Rows(out, s, rows)[t])
    {
      RowWithin(x, s, cols, t);
      RowWithin(out, s, rows, t);
      HonestRow(w, xm[t], bias, r, rows, cols);
    }
  }

  lemma HonestBatched(h: HashFn, op: BlockOp, m: P.Bindings, bufs: P.Bufs, st: Digest)
    requires op.BatchedLinear? && Int8Bound(op, m) && P.ProveOp(op, m, bufs) == Ok(op.out)
    ensures AuditOp(h, op, m, bufs, st).Ok? <==> InsideGuards(op, m, bufs)
  {
    var w, x, bias, rows, cols := OperandsFound(op, m, bufs);
    BatchedAudit(h, op, m, bufs, st, w, x, bias, rows, cols);
    if |bias| < rows {
      assert op.seqLen == 0 && op.out == [];
    } else {
      BatchedProve(op, m, bufs, w, x, bias, rows, cols);
      if Guarded(cols, x, bias, op.out) {
        HonestRows(w, x, bias, ChallengeVec(h, st, FREIVALDS_R, rows), op.seqLen, rows, cols);
      }
    }
  }

  /** Whatever the transcript state, an honest op is accepted iff it is inside the guards. */
  lemma HonestOp(h: HashFn, op: BlockOp, m: P.Bindings, bufs: P.Bufs, st: Digest)
    requires Int8Bound(op, m) && P.ProveOp(op, m, bufs) == Ok(op.out)
    ensures AuditOp(h, op, m, bufs, st).Ok? <==> InsideGuards(op, m, bufs)
  {
    if op.Linear? {
      HonestLinear(h, op, m, bufs, st);
    } else if op.BatchedLinear? {
      HonestBatched(h, op, m, bufs, st);
    } else if op.Activation? {
      LookupsSound(FindTable(m.tables, op.tableId).value, bufs[op.inBuf], op.out, BlockOpMismatch(op.opId));
    }
  }

  /** Every op of a filled block is inside the guards on the buffers it runs on. */
  predicate AllInsideGuards(filled: seq<BlockOp>, m: P.Bindings, bufs: P.Bufs) {
    if |filled| == 0 then true
    else
      var n := |filled| - 1;
      AllInsideGuards(filled[..n], m, bufs)
      && (P.ProveOps(filled[..n], m, bufs).Ok? ==> InsideGuards(filled[n], m, P.ProveOps(filled[..n], m, bufs).value.1))
  }

  /** A filled block run again is itself. */
  lemma {:induction false} HonestAudit(h: HashFn, filled: seq<BlockOp>, m: P.Bindings, bufs: P.Bufs, final: P.Bufs,
                                       st: Digest)
    requires AllInt8Bound(filled, m) && P.ProveOps(filled, m, bufs) == Ok((filled, final))
    ensures AuditOps(h, filled, m, bufs, st).Ok? <==> AllInsideGuards(filled, m, bufs)
    ensures AuditOps(h, filled, m, bufs, st).Ok? ==> AuditOps(h, filled, m, bufs, st).value.0 == final
  {
    if |filled| != 0 {
      var n := |filled| - 1;
      var op := filled[n];
      var init := PrefixRun(filled, m, bufs, final);
      HonestAudit(h, filled[..n], m, bufs, init, st);
      if AuditOps(h, filled[..n], m, bufs, st).Ok? {
        HonestOp(h, op, m, init, AuditOps(h, filled[..n], m, bufs, st).value.1);
      }
    }
  }

  /** The run of a reproduced block reproduces its prefixes. */
  lemma PrefixRun(filled: seq<BlockOp>, m: P.Bindings, bufs: P.Bufs, final: P.Bufs) returns (init: P.Bufs)
    requires |filled| > 0 && P.ProveOps(filled, m, bufs) == Ok((filled, final))
    ensures var n := |filled| - 1;
            && P.ProveOps(filled[..n], m, bufs) == Ok((filled[..n], init))
            && P.ProveOp(filled[n], m, init) == Ok(filled[n].out)
            && final == init[filled[n].outBuf := filled[n].out]
  {
    var n := |filled| - 1;
    var ops', out := P.LastFilled(filled, m, bufs);
    init := P.ProveOps(filled[..n], m, bufs).value.1;
    assert filled[..n] == ops' && filled[n] == filled[n].SetOut(out);
  }

  /**
   * The audit accepts the result of prove_block, whatever challenges the transcript
   * yields, exactly when every op of it is inside the guards; it then returns the final
   * content of the output buffer.
   */
  lemma AuditBlockComplete(h: HashFn, block: Block, proven: Block, m: P.Bindings, inputs: Inputs, st: Digest)
    requires AllInt8Bound(block.ops, m) && P.ProveBlock(block, m, inputs) == Ok(proven)
    ensures AuditBlock(h, proven, m, inputs, st).Ok?
       <==> AllInsideGuards(proven.ops, m, P.Seed(inputs)) && FinalBuffer(block, m, inputs).Some?
    ensures AuditBlock(h, proven, m, inputs, st).Ok? ==>
              FinalBuffer(block, m, inputs) == Some(AuditBlock(h, proven, m, inputs, st).value)
  {
    var seeded := P.Seed(inputs);
    var (filled, final) := P.ProveOps(block.ops, m, seeded).value;
    P.FilledSkeleton(block.ops, m, seeded);
    P.ClaimsIgnored(block.ops, m, seeded);
    P.ClaimsIgnored(filled, m, seeded);
    SkeletonInt8(block.ops, filled, m);
    HonestAudit(h, filled, m, seeded, final, st);
  }

  /** verify_block, in particular. */
  lemma BlockComplete(h: HashFn, block: Block, proven: Block, m: P.Bindings, inputs: Inputs)
    requires AllInt8Bound(block.ops, m) && P.ProveBlock(block, m, inputs) == Ok(proven)
    ensures VerifyBlock(h, proven, m, inputs).Ok?
       <==> AllInsideGuards(proven.ops, m, P.Seed(inputs)) && FinalBuffer(block, m, inputs).Some?
    ensures VerifyBlock(h, proven, m, inputs).Ok? ==>
              FinalBuffer(block, m, inputs) == Some(VerifyBlock(h, proven, m, inputs).value)
  {
    AuditBlockComplete(h, block, proven, m, inputs, BlockTranscript(h, proven, inputs));
  }

  lemma SkeletonWellBound(ops: seq<BlockOp>, filled: seq<BlockOp>, m: P.Bindings)
    requires AllWellBound(ops, m) && Skeleton(filled) == Skeleton(ops)
    ensures AllWellBound(filled, m)
  {
    forall i | 0 <= i < |filled| ensures WellBound(filled[i], m) {
      assert |Skeleton(ops)| == |Skeleton(filled)|;
      assert Skeleton(ops)[i] == ops[i].Cleared() && Skeleton(filled)[i] == filled[i].Cleared();
      assert WellBound(ops[i], m);
      SameBinding(ops[i], filled[i], m);
    }
  }

  lemma SkeletonInt8(ops: seq<BlockOp>, filled: seq<BlockOp>, m: P.Bindings)
    requires AllInt8Bound(ops, m) && Skeleton(filled) == Skeleton(ops)
    ensures AllInt8Bound(filled, m)
  {
    forall i | 0 <= i < |filled| ensures Int8Bound(filled[i], m) {
      assert |Skeleton(ops)| == |Skeleton(filled)|;
      assert Skeleton(ops)[i] == ops[i].Cleared() && Skeleton(filled)[i] == filled[i].Cleared();
      assert Int8Bound(ops[i], m);
      SameBinding(ops[i], filled[i], m);
    }
  }

  /** Ops that differ in their claims alone name the same operands. */
  lemma SameBinding(a: BlockOp, b: BlockOp, m: P.Bindings)
    requires a.Cleared() == b.Cleared()
    ensures Int8Bound(a, m) ==> Int8Bound(b, m)
    ensures WellBound(a, m) ==> WellBound(b, m)
  {
    assert a.Cleared().Linear? == a.Linear? && a.Cleared().BatchedLinear? == a.BatchedLinear?;
    if b.Linear? || b.BatchedLinear? {
      assert a.weightId == a.Cleared().weightId == b.weightId;
      assert a.biasId == a.Cleared().biasId == b.biasId;
    }
  }
}
