/**
 * What the audit modes decide. With challenges that do not escape, every mode accepts
 * exactly the artifacts whose trace is exact and in range, and an exact trace computes
 * the composition of the committed graph.
 */
module FeedForwardAudit {
  import opened Wrappers
  import opened Arith
  import opened Bytes
  import opened Transcripts
  import opened FixedPoint
  import opened Kernels
  import opened Tensors
  import opened Freivalds
  import opened Soundness
  import opened Commitments
  import opened Traces
  import opened FeedForward
  import opened FeedForwardVerifier
  import V = BlockVerifier
  import P = BlockProver
  import A = BlockAudit
  import Field

  // ------------------------------------------------------ the challenge-free verdict

  /** The operands a linear record names: weight, bias, dimensions. */
  datatype Operands = Operands(w: seq<int>, bias: seq<int>, rows: nat, cols: nat)

  function OperandsOf(ws: seq<TensorT>, rec: OpRecord): (r: Option<Operands>)
    requires rec.LinearRec?
    ensures r.Some? ==> |r.value.w| == r.value.rows * r.value.cols
  {
    var w :- FindTensor(ws, rec.weightId);
    if |w.shape| != 2 then None
    else
      MatrixSize(w);
      var bias :- BiasOf(ws, rec.biasId, w.shape[0]).ToOption();
      Some(Operands(w.Values(), bias, w.shape[0], w.shape[1]))
  }

  /** int8 weights, which the verifier's cast leaves alone. */
  predicate Int8Rec(ws: seq<TensorT>, rec: OpRecord) {
    rec.LinearRec? && OperandsOf(ws, rec).Some? ==> Int8(OperandsOf(ws, rec).value.w)
  }

  predicate Int8Trace(ws: seq<TensorT>, trace: seq<OpRecord>) {
    forall i :: 0 <= i < |trace| ==> Int8Rec(ws, trace[i])
  }

  /** For soundness also: weights the guard covers, and a bias for every output row. */
  predicate BoundRec(ws: seq<TensorT>, rec: OpRecord) {
    && Int8Rec(ws, rec)
    && (rec.LinearRec? && OperandsOf(ws, rec).Some? ==>
          var o := OperandsOf(ws, rec).value;
          GuardCovers(o.w, o.cols) && |o.bias| >= o.rows)
  }

  predicate BoundTrace(ws: seq<TensorT>, trace: seq<OpRecord>) {
    forall i :: 0 <= i < |trace| ==> BoundRec(ws, trace[i])
  }

  /** A linear record whose claim is the exact product. */
  predicate HonestLinear(ws: seq<TensorT>, rec: OpRecord) {
    rec.LinearRec? ==>
      OperandsOf(ws, rec).Some? &&
      var o := OperandsOf(ws, rec).value;
      && |rec.input| == o.cols && |o.bias| >= o.rows
      && rec.output == Kernels.Linear(o.w, rec.input, o.bias[..o.rows], o.rows, o.cols)
  }

  /** Records on which no challenge can be misled: the guard covers them, or the claim is true. */
  predicate Settled(ws: seq<TensorT>, rec: OpRecord) {
    BoundRec(ws, rec) || (Int8Rec(ws, rec) && HonestLinear(ws, rec))
  }

  predicate AllSettled(ws: seq<TensorT>, trace: seq<OpRecord>) {
    forall i :: 0 <= i < |trace| ==> Settled(ws, trace[i])
  }

  /** The claim holds over the integers and lies inside the guard. */
  predicate ExactRec(ws: seq<TensorT>, ts: seq<ActivationTable>, rec: OpRecord) {
    if rec.LinearRec? then
      OperandsOf(ws, rec).Some? &&
      var o := OperandsOf(ws, rec).value;
      && |rec.input| == o.cols && |rec.output| == o.rows && |o.bias| >= o.rows
      && Guarded(o.cols, rec.input, o.bias, rec.output)
      && rec.output == Kernels.Linear(o.w, rec.input, o.bias[..o.rows], o.rows, o.cols)
    else CheckExactRec(ws, ts, rec).Ok?
  }

  function ExactWalk(ws: seq<TensorT>, ts: seq<ActivationTable>, trace: seq<OpRecord>,
                     start: seq<int>): Option<seq<int>>
  {
    if |trace| == 0 then Some(start)
    else
      var n := |trace| - 1;
      var current :- ExactWalk(ws, ts, trace[..n], start);
      if trace[n].input == current && ExactRec(ws, ts, trace[n]) then Some(trace[n].output) else None
  }

  /** The verdict of an audit that no challenge escapes. */
  predicate ExactVerify(h: HashFn, a: AuditArtifact) {
    && CheckStatement(h, a).Ok? && DecodeInput(a.publicInput).Ok?
    && var walk := ExactWalk(a.weights, a.tables, a.trace, DecodeInput(a.publicInput).value);
    walk.Some? && CheckOutput(h, a, walk.value).Ok?
  }

  // -------------------------------------------------------- one linear, one challenge

  /** `v` is the fold of `r` through the record's weight. */
  predicate GoodChallenge(ws: seq<TensorT>, rec: OpRecord, c: Challenge)
    requires rec.LinearRec?
  {
    WeightI8(ws, rec.weightId).Ok? &&
    var (w, rows, cols) := WeightI8(ws, rec.weightId).value;
    |c.0| == rows && c.1 == Reduced(VOf(c.0, w, rows, cols))
  }

  /** The challenge accepts a guarded accumulator that is wrong. */
  ghost predicate RecEscapes(ws: seq<TensorT>, rec: OpRecord, c: Challenge) {
    rec.LinearRec? && OperandsOf(ws, rec).Some? &&
    var o := OperandsOf(ws, rec).value;
    |o.bias| >= o.rows && A.RowEscapes(c.0, o.w, rec.input, o.bias[..o.rows], rec.output, o.rows, o.cols)
  }

  /** A challenge that does not escape accepts exactly the exact claims. */
  lemma LinearDecides(ws: seq<TensorT>, ts: seq<ActivationTable>, rec: OpRecord, c: Challenge)
    requires rec.LinearRec? && Settled(ws, rec) && GoodChallenge(ws, rec, c) && !RecEscapes(ws, rec, c)
    ensures CheckLinearRec(ws, rec, c).Ok? <==> ExactRec(ws, ts, rec)
  {
    var op := OperandsOf(ws, rec);
    if op.Some? && |rec.input| == op.value.cols && |rec.output| == op.value.rows {
      var o := op.value;
      A.CastIsIdentity(o.w);
      if CheckLinearRec(ws, rec, c).Ok? && BoundRec(ws, rec) {
        A.RowSound(o.w, rec.input, o.bias, c.0, rec.output, o.rows, o.cols);
        GuardPrefix(o.cols, rec.input, o.bias, rec.output, o.rows);
      } else if ExactRec(ws, ts, rec) {
        A.HonestRow(o.w, rec.input, o.bias, c.0, o.rows, o.cols);
      }
    }
  }

  lemma GuardPrefix(cols: nat, x: seq<int>, bias: seq<int>, out: seq<int>, rows: nat)
    requires Guarded(cols, x, bias, out) && rows <= |bias|
    ensures Guarded(cols, x, bias[..rows], out)
  {
  }

  // ----------------------------------------------------------------- the whole walk

  /** A linear record is never skipped, and gets a good challenge if its weight resolves. */
  ghost predicate Supplied(h: HashFn, ch: Challenges, ws: seq<TensorT>, rec: OpRecord) {
    rec.LinearRec? ==>
      var next := Next(h, ch, ws, rec);
      && (next.Ok? ==> next.value.0.Some?)
      && (WeightI8(ws, rec.weightId).Ok? ==> next.Ok? && GoodChallenge(ws, rec, next.value.0.value))
  }

  /** The challenge drawn for this record escapes. */
  ghost predicate EscapesAt(h: HashFn, ch: Challenges, ws: seq<TensorT>, rec: OpRecord) {
    rec.LinearRec? &&
    var next := Next(h, ch, ws, rec);
    next.Ok? && next.value.0.Some? && RecEscapes(ws, rec, next.value.0.value)
  }

  /** The source hands a good challenge to every linear record the walk reaches. */
  ghost predicate Supplies(h: HashFn, ch: Challenges, ws: seq<TensorT>, ts: seq<ActivationTable>,
                           trace: seq<OpRecord>, start: seq<int>)
  {
    |trace| == 0 || (
      var n := |trace| - 1;
      var walk := WalkTrace(h, ch, ws, ts, trace[..n], start);
      && Supplies(h, ch, ws, ts, trace[..n], start)
      && (walk.Ok? ==> Supplied(h, walk.value.1, ws, trace[n])))
  }

  /** Some challenge drawn on the walk escapes. */
  ghost predicate WalkEscapes(h: HashFn, ch: Challenges, ws: seq<TensorT>, ts: seq<ActivationTable>,
                              trace: seq<OpRecord>, start: seq<int>)
  {
    |trace| > 0 &&
    var n := |trace| - 1;
    var walk := WalkTrace(h, ch, ws, ts, trace[..n], start);
    || WalkEscapes(h, ch, ws, ts, trace[..n], start)
    || (walk.Ok? && EscapesAt(h, walk.value.1, ws, trace[n]))
  }

  lemma RecordDecides(h: HashFn, ch: Challenges, ws: seq<TensorT>, ts: seq<ActivationTable>, rec: OpRecord)
    requires Settled(ws, rec) && Supplied(h, ch, ws, rec) && !EscapesAt(h, ch, ws, rec)
    ensures CheckRecord(h, ch, ws, ts, rec).Ok? <==> ExactRec(ws, ts, rec)
  {
    if rec.LinearRec? && WeightI8(ws, rec.weightId).Ok? {
      LinearDecides(ws, ts, rec, Next(h, ch, ws, rec).value.0.value);
    }
  }

  /** Without an escape the walk accepts exactly the exact traces, with the same result. */
  lemma {:induction false} WalkDecides(h: HashFn, ch: Challenges, ws: seq<TensorT>, ts: seq<ActivationTable>,
                                       trace: seq<OpRecord>, start: seq<int>)
    requires AllSettled(ws, trace) && Supplies(h, ch, ws, ts, trace, start) && !WalkEscapes(h, ch, ws, ts, trace, start)
    ensures WalkTrace(h, ch, ws, ts, trace, start).ToOption().Some? <==> ExactWalk(ws, ts, trace, start).Some?
    ensures WalkTrace(h, ch, ws, ts, trace, start).Ok? ==>
              ExactWalk(ws, ts, trace, start) == Some(WalkTrace(h, ch, ws, ts, trace, start).value.0)
  {
    hide CheckRecord, ExactRec, Supplied, EscapesAt, Settled;
    if |trace| != 0 {
      var n := |trace| - 1;
      WalkDecides(h, ch, ws, ts, trace[..n], start);
      var walk := WalkTrace(h, ch, ws, ts, trace[..n], start);
      if walk.Ok? {
        RecordDecides(h, walk.value.1, ws, ts, trace[n]);
      }
    }
  }

  /** Whatever the mode, the verdict on settled records is the exact one unless a challenge escapes. */
  lemma SettledVerdict(h: HashFn, a: AuditArtifact, ch: Challenges)
    requires AllSettled(a.weights, a.trace)
    requires DecodeInput(a.publicInput).Ok? ==>
               var start := DecodeInput(a.publicInput).value;
               && Supplies(h, ch, a.weights, a.tables, a.trace, start)
               && !WalkEscapes(h, ch, a.weights, a.tables, a.trace, start)
    ensures VerifyWith(h, a, ch).Ok? <==> ExactVerify(h, a)
  {
    hide CheckStatement, CheckOutput, Supplies, WalkEscapes, AllSettled, CheckRecord;
    if DecodeInput(a.publicInput).Ok? {
      var start := DecodeInput(a.publicInput).value;
      WalkDecides(h, ch, a.weights, a.tables, a.trace, start);
      if ExactWalk(a.weights, a.tables, a.trace, start).Some? && |a.trace| > 0 {
        FirstInput(a.weights, a.tables, a.trace, start);
      }
    }
  }

  /** In particular where the guard covers every record, whatever it claims. */
  lemma VerdictIsExact(h: HashFn, a: AuditArtifact, ch: Challenges)
    requires BoundTrace(a.weights, a.trace)
    requires DecodeInput(a.publicInput).Ok? ==>
               var start := DecodeInput(a.publicInput).value;
               && Supplies(h, ch, a.weights, a.tables, a.trace, start)
               && !WalkEscapes(h, ch, a.weights, a.tables, a.trace, start)
    ensures VerifyWith(h, a, ch).Ok? <==> ExactVerify(h, a)
  {
    hide VerifyWith, ExactVerify, Supplies, WalkEscapes, BoundRec;
    SettledVerdict(h, a, ch);
  }

  lemma {:induction false} FirstInput(ws: seq<TensorT>, ts: seq<ActivationTable>, trace: seq<OpRecord>, start: seq<int>)
    requires |trace| > 0 && ExactWalk(ws, ts, trace, start).Some?
    ensures trace[0].input == start
  {
    hide ExactRec;
    if |trace| > 1 {
      FirstInput(ws, ts, trace[..|trace| - 1], start);
    } else {
      assert trace[..0] == [];
    }
  }

  // --------------------------------------------------------------- the four sources

  lemma {:induction false} FiatStays(h: HashFn, st: Digest, ws: seq<TensorT>, ts: seq<ActivationTable>,
                                     trace: seq<OpRecord>, start: seq<int>)
    ensures WalkTrace(h, Fiat(st), ws, ts, trace, start).Ok? ==>
              WalkTrace(h, Fiat(st), ws, ts, trace, start).value.1.Fiat?
  {
    if |trace| != 0 {
      FiatStays(h, st, ws, ts, trace[..|trace| - 1], start);
    }
  }

  /** Fiat-Shamir always supplies. */
  lemma {:induction false} FiatSupplies(h: HashFn, st: Digest, ws: seq<TensorT>, ts: seq<ActivationTable>,
                                        trace: seq<OpRecord>, start: seq<int>)
    ensures Supplies(h, Fiat(st), ws, ts, trace, start)
  {
    if |trace| != 0 {
      FiatSupplies(h, st, ws, ts, trace[..|trace| - 1], start);
      FiatStays(h, st, ws, ts, trace[..|trace| - 1], start);
    }
  }

  /** The shared maps hold a good challenge for every linear record. */
  predicate GoodMaps(ws: seq<TensorT>, trace: seq<OpRecord>, rmap: map<nat, seq<Field.Fp>>,
                     vmap: map<nat, seq<Field.Fp>>)
  {
    forall i :: 0 <= i < |trace| && trace[i].LinearRec? && WeightI8(ws, trace[i].weightId).Ok? ==>
      && trace[i].weightId in rmap && trace[i].weightId in vmap
      && GoodChallenge(ws, trace[i], (rmap[trace[i].weightId], vmap[trace[i].weightId]))
  }

  lemma {:induction false} BatchedStays(h: HashFn, ch: Challenges, ws: seq<TensorT>, ts: seq<ActivationTable>,
                                        trace: seq<OpRecord>, start: seq<int>)
    requires ch.Batched?
    ensures WalkTrace(h, ch, ws, ts, trace, start).Ok? ==> WalkTrace(h, ch, ws, ts, trace, start).value.1 == ch
  {
    if |trace| != 0 {
      BatchedStays(h, ch, ws, ts, trace[..|trace| - 1], start);
    }
  }

  lemma {:induction false} BatchedSupplies(h: HashFn, ch: Challenges, ws: seq<TensorT>, ts: seq<ActivationTable>,
                                           trace: seq<OpRecord>, start: seq<int>)
    requires ch.Batched? && GoodMaps(ws, trace, ch.rmap, ch.vmap)
    ensures Supplies(h, ch, ws, ts, trace, start)
  {
    hide WalkTrace;
    if |trace| != 0 {
      var n := |trace| - 1;
      forall i | 0 <= i < n && trace[..n][i].LinearRec? && WeightI8(ws, trace[..n][i].weightId).Ok?
        ensures trace[i].weightId in ch.rmap && trace[i].weightId in ch.vmap
             && GoodChallenge(ws, trace[i], (ch.rmap[trace[i].weightId], ch.vmap[trace[i].weightId])) {
        assert trace[..n][i] == trace[i];
      }
      BatchedSupplies(h, ch, ws, ts, trace[..n], start);
      BatchedStays(h, ch, ws, ts, trace[..n], start);
      assert trace[n].LinearRec? ==> trace[n] in trace;
    }
  }

  function LinearCount(trace: seq<OpRecord>): (n: nat)
    ensures n <= |trace|
  {
    if |trace| == 0 then 0 else LinearCount(trace[..|trace| - 1]) + (if trace[|trace| - 1].LinearRec? then 1 else 0)
  }

  /** One secret vector per linear record, of the length of its weight's rows. */
  predicate SecretFits(ws: seq<TensorT>, trace: seq<OpRecord>, rs: seq<seq<Field.Fp>>) {
    |trace| == 0 || (
      var n := |trace| - 1;
      && SecretFits(ws, trace[..n], rs)
      && (trace[n].LinearRec? && WeightI8(ws, trace[n].weightId).Ok? ==>
            LinearCount(trace[..n]) < |rs| && |rs[LinearCount(trace[..n])]| == WeightI8(ws, trace[n].weightId).value.1))
  }

  lemma {:induction false} SecretCursor(h: HashFn, rs: seq<seq<Field.Fp>>, ws: seq<TensorT>, ts: seq<ActivationTable>,
                                        trace: seq<OpRecord>, start: seq<int>)
    ensures WalkTrace(h, Secret(rs, 0), ws, ts, trace, start).Ok? ==>
              WalkTrace(h, Secret(rs, 0), ws, ts, trace, start).value.1 == Secret(rs, LinearCount(trace))
  {
    if |trace| != 0 {
      SecretCursor(h, rs, ws, ts, trace[..|trace| - 1], start);
    }
  }

  lemma {:induction false} SecretSupplies(h: HashFn, rs: seq<seq<Field.Fp>>, ws: seq<TensorT>,
                                          ts: seq<ActivationTable>, trace: seq<OpRecord>, start: seq<int>)
    requires SecretFits(ws, trace, rs)
    ensures Supplies(h, Secret(rs, 0), ws, ts, trace, start)
  {
    hide WalkTrace;
    if |trace| != 0 {
      SecretSupplies(h, rs, ws, ts, trace[..|trace| - 1], start);
      SecretCursor(h, rs, ws, ts, trace[..|trace| - 1], start);
    }
  }

  /** Some challenge of this audit escapes. */
  ghost predicate AuditEscapes(h: HashFn, a: AuditArtifact, ch: Challenges) {
    DecodeInput(a.publicInput).Ok? && WalkEscapes(h, ch, a.weights, a.tables, a.trace, DecodeInput(a.publicInput).value)
  }

  /** The Fiat-Shamir audit accepts exactly the exact artifacts. */
  lemma VerifyIsExact(h: HashFn, a: AuditArtifact)
    requires BoundTrace(a.weights, a.trace) && !AuditEscapes(h, a, FiatStart(h, a))
    ensures Verify(h, a).Ok? <==> ExactVerify(h, a)
  {
    hide BoundTrace, ExactVerify, VerifyWith;
    if DecodeInput(a.publicInput).Ok? {
      FiatSupplies(h, FiatStart(h, a).state, a.weights, a.tables, a.trace, DecodeInput(a.publicInput).value);
    }
    VerdictIsExact(h, a, FiatStart(h, a));
  }

  /** So does the interactive audit, given a vector for each linear. */
  lemma InteractiveIsExact(h: HashFn, a: AuditArtifact, rs: seq<seq<Field.Fp>>)
    requires BoundTrace(a.weights, a.trace) && SecretFits(a.weights, a.trace, rs) && !AuditEscapes(h, a, Secret(rs, 0))
    ensures VerifyInteractive(h, a, rs).Ok? <==> ExactVerify(h, a)
  {
    hide BoundTrace, ExactVerify, VerifyWith;
    if DecodeInput(a.publicInput).Ok? {
      SecretSupplies(h, rs, a.weights, a.tables, a.trace, DecodeInput(a.publicInput).value);
    }
    VerdictIsExact(h, a, Secret(rs, 0));
  }

  /** And the batched one, given good maps. */
  lemma BatchedIsExact(h: HashFn, a: AuditArtifact, ch: Challenges)
    requires ch.Batched? && BoundTrace(a.weights, a.trace) && GoodMaps(a.weights, a.trace, ch.rmap, ch.vmap)
             && !AuditEscapes(h, a, ch)
    ensures VerifyWith(h, a, ch).Ok? <==> ExactVerify(h, a)
  {
    hide BoundTrace, ExactVerify, VerifyWith, GoodMaps;
    if DecodeInput(a.publicInput).Ok? {
      BatchedSupplies(h, ch, a.weights, a.tables, a.trace, DecodeInput(a.publicInput).value);
    }
    VerdictIsExact(h, a, ch);
  }

  // ------------------------------------------------- exact traces compute the graph

  function BindingsOf(a: AuditArtifact): P.Bindings { P.Bindings(a.weights, a.tables) }

  lemma ExactStep(m: P.Bindings, spec: OpSpec, rec: OpRecord)
    requires Conforms(spec, rec) && ExactRec(m.weights, m.tables, rec)
    ensures ApplyOp(spec, m, rec.input) == Some(rec.output)
  {
    if rec.LinearRec? {
      var w := FindTensor(m.weights, rec.weightId).value;
      assert w.shape == [w.shape[0], w.shape[1]];
    } else if rec.ActivationRec? {
      A.LookupsSound(FindTable(m.tables, rec.tableId).value, rec.input, rec.output, V.ExactReplayMismatch(rec.opId));
    }
  }

  lemma {:induction false} WalkComposes(m: P.Bindings, ops: seq<OpSpec>, trace: seq<OpRecord>, start: seq<int>)
    requires |ops| == |trace| && forall i :: 0 <= i < |ops| ==> Conforms(ops[i], trace[i])
    requires ExactWalk(m.weights, m.tables, trace, start).Some?
    ensures Compose(ops, m, start) == ExactWalk(m.weights, m.tables, trace, start)
  {
    hide ExactRec, ApplyOp, Conforms;
    if |trace| != 0 {
      var n := |trace| - 1;
      WalkComposes(m, ops[..n], trace[..n], start);
      ExactStep(m, ops[n], trace[n]);
    }
  }

  lemma StatementConforms(h: HashFn, a: AuditArtifact)
    requires CheckStatement(h, a).Ok?
    ensures |a.graph| == |a.trace| && forall i :: 0 <= i < |a.graph| ==> Conforms(a.graph[i], a.trace[i])
  {
  }

  lemma OutputClaimed(h: HashFn, a: AuditArtifact, current: seq<int>)
    requires CheckOutput(h, a, current).Ok?
    ensures a.claimedOutput.Values() == current
  {
  }

  /**
   * Feed-forward soundness: an exact artifact's claimed output is the left-to-right
   * composition of the committed graph's ops on the decoded public input.
   */
  lemma ExactComputesGraph(h: HashFn, a: AuditArtifact)
    requires ExactVerify(h, a)
    ensures Compose(a.graph, BindingsOf(a), DecodeInput(a.publicInput).value) == Some(a.claimedOutput.Values())
  {
    hide ExactWalk, Compose, CheckStatement, CheckOutput, Conforms;
    StatementConforms(h, a);
    var start := DecodeInput(a.publicInput).value;
    OutputClaimed(h, a, ExactWalk(a.weights, a.tables, a.trace, start).value);
    WalkComposes(BindingsOf(a), a.graph, a.trace, start);
  }

  lemma AcceptedDecodes(h: HashFn, a: AuditArtifact, ch: Challenges)
    requires VerifyWith(h, a, ch).Ok?
    ensures DecodeInput(a.publicInput).Ok?
  {
    hide CheckStatement, CheckOutput, WalkTrace;
  }

  /** An accepted artifact computes its graph, unless a challenge escapes. */
  lemma VerifySound(h: HashFn, a: AuditArtifact)
    requires BoundTrace(a.weights, a.trace) && Verify(h, a).Ok?
    ensures DecodeInput(a.publicInput).Ok?
    ensures AuditEscapes(h, a, FiatStart(h, a))
         || Compose(a.graph, BindingsOf(a), DecodeInput(a.publicInput).value) == Some(a.claimedOutput.Values())
  {
    AcceptedDecodes(h, a, FiatStart(h, a));
    hide BoundTrace, Verify, Compose, AuditEscapes, BindingsOf, ExactVerify, DecodeInput;
    if !AuditEscapes(h, a, FiatStart(h, a)) {
      VerifyIsExact(h, a);
      ExactComputesGraph(h, a);
    }
  }
}
