/**
 * crates/pwm-verifier/src/lib.rs: `verify_with`, the trace walk shared by the four audit
 * modes, and the challenge sources it is parameterized by.
 */
module FeedForwardVerifier {
  import opened Wrappers
  import opened Arith
  import opened Bytes
  import opened Transcripts
  import opened FixedPoint
  import opened Kernels
  import opened Tensors
  import opened Freivalds
  import opened Commitments
  import opened Traces
  import opened FeedForward
  import V = BlockVerifier
  import P = BlockProver
  import Field

  type Error = V.VerifyError

  // -------------------------------------------------------------------- challenges

  type Challenge = (seq<Field.Fp>, seq<Field.Fp>)

  /** Where challenges come from, with its cursor. */
  datatype Challenges =
    | Fiat(state: Digest)
    | Secret(rs: seq<seq<Field.Fp>>, idx: nat)
    | Batched(rmap: map<nat, seq<Field.Fp>>, vmap: map<nat, seq<Field.Fp>>)
    | Sampled(state: Digest, picked: set<nat>, linearIdx: nat)

  /** `weight_i8`: a weight matrix, each cell cast, with its dimensions. */
  function WeightI8(ws: seq<TensorT>, id: nat): (r: Result<(seq<int>, nat, nat), Error>)
    ensures r.Ok? ==> |r.value.0| == r.value.1 * r.value.2 && AllIn(r.value.0, -128, 127)
  {
    var w :- FindTensor(ws, id).OkOr(V.MissingBinding(V.Weight));
    if |w.shape| != 2 then Err(V.MissingBinding(V.WeightShape))
    else
      MatrixSize(w);
      Ok((V.CastI8(w.Values()), w.shape[0], w.shape[1]))
  }

  /** The challenge for one linear record, or None when a sampled audit skips it. */
  function Next(h: HashFn, ch: Challenges, ws: seq<TensorT>,
                rec: OpRecord): Result<(Option<Challenge>, Challenges), Error>
    requires rec.LinearRec?
  {
    match ch
    case Fiat(st) =>
      var (w, rows, cols) :- WeightI8(ws, rec.weightId);
      var r := ChallengeVec(h, st, V.FREIVALDS_R, rows);
      Ok((Some((r, Reduced(VOf(r, w, rows, cols)))), Fiat(SqueezeState(h, st, V.FREIVALDS_R))))
    case Secret(rs, idx) =>
      var (w, rows, cols) :- WeightI8(ws, rec.weightId);
      if idx >= |rs| || |rs[idx]| != rows then Err(V.FreivaldsCheckFailed(rec.opId))
      else Ok((Some((rs[idx], Reduced(VOf(rs[idx], w, rows, cols)))), Secret(rs, idx + 1)))
    case Batched(rmap, vmap) =>
      if rec.weightId !in rmap || rec.weightId !in vmap then Err(V.FreivaldsCheckFailed(rec.opId))
      else Ok((Some((rmap[rec.weightId], vmap[rec.weightId])), ch))
    case Sampled(st, picked, i) =>
      if i !in picked then Ok((None, Sampled(st, picked, i + 1)))
      else
        var (w, rows, cols) :- WeightI8(ws, rec.weightId);
        var r := ChallengeVec(h, st, V.FREIVALDS_R, rows);
        Ok((Some((r, Reduced(VOf(r, w, rows, cols)))), Sampled(SqueezeState(h, st, V.FREIVALDS_R), picked, i + 1)))
  }

  // ------------------------------------------------------------------ record checks

  function BiasOf(ws: seq<TensorT>, biasId: Option<nat>, rows: nat): Result<seq<int>, Error> {
    match biasId
    case None => Ok(Zeros(rows))
    case Some(id) =>
      var t :- FindTensor(ws, id).OkOr(V.MissingBinding(V.Bias));
      Ok(t.Values())
  }

  function CheckLinearRec(ws: seq<TensorT>, rec: OpRecord, c: Challenge): Result<(), Error>
    requires rec.LinearRec?
  {
    var (_, rows, cols) :- WeightI8(ws, rec.weightId);
    var (r, v) := c;
    if |r| != rows || |v| != cols || |rec.output| != rows || |rec.input| != cols
    then Err(V.FreivaldsCheckFailed(rec.opId))
    else
      var bias :- BiasOf(ws, rec.biasId, rows);
      var _ :- V.RangeGuard(rec.opId, cols, rec.input, bias, rec.output);
      V.Expect(CheckLinearBiased(v, rec.input, bias, r, rec.output), V.FreivaldsCheckFailed(rec.opId))
  }

  function CheckExactRec(ws: seq<TensorT>, ts: seq<ActivationTable>, rec: OpRecord): Result<(), Error>
    requires !rec.LinearRec?
  {
    match rec
    case RequantRec(opId, x, y, shift, zeroPoint, lo, hi, rounding) =>
      var mode :- FromDiscriminant(rounding).OkOr(V.ExactReplayMismatch(opId));
      if !ValidShift(shift) then Err(V.InvalidShift(opId))
      else V.Expect(|x| == |y| && RequantAll(x, shift, zeroPoint, lo, hi, mode) == y, V.ExactReplayMismatch(opId))
    case ActivationRec(opId, tableId, x, y) =>
      var t :- FindTable(ts, tableId).OkOr(V.MissingBinding(V.Table));
      if |x| != |y| then Err(V.ExactReplayMismatch(opId)) else V.CheckLookups(t, x, y, V.ExactReplayMismatch(opId))
    case LayerNormRec(opId, tableId, x, y, shift, lo, hi, rounding) =>
      var t :- FindTable(ts, tableId).OkOr(V.MissingBinding(V.LayerNormTable));
      var mode :- FromDiscriminant(rounding).OkOr(V.ExactReplayMismatch(opId));
      if !ValidShift(shift) then Err(V.InvalidShift(opId))
      else
        var expected :- Kernels.LayerNorm(x, t, Kernels.Requant(shift, lo, hi, mode)).OkOr(V.ActivationDomain(tableId));
        V.Expect(expected == y, V.ExactReplayMismatch(opId))
  }

  /** One record of the walk: challenge and check a linear, recompute anything else. */
  function CheckRecord(h: HashFn, ch: Challenges, ws: seq<TensorT>, ts: seq<ActivationTable>,
                       rec: OpRecord): Result<Challenges, Error>
  {
    if rec.LinearRec? then
      var (c, ch') :- Next(h, ch, ws, rec);
      if c.None? then Ok(ch')
      else
        var _ :- CheckLinearRec(ws, rec, c.value);
        Ok(ch')
    else
      var _ :- CheckExactRec(ws, ts, rec);
      Ok(ch)
  }

  // ------------------------------------------------------------------- conformance

  predicate Conforms(spec: OpSpec, rec: OpRecord) {
    match (spec, rec)
    case (LinearSpec(id, w, b, rows, cols), LinearRec(id', w', b', x, y)) =>
      id' == id && w' == w && b' == b && |x| == cols && |y| == rows
    case (RequantSpec(id, s, z, lo, hi, m), RequantRec(id', _, _, s', z', lo', hi', m')) =>
      id' == id && s' == s && z' == z && lo' == lo && hi' == hi && m' == m
    case (ActivationSpec(id, t), ActivationRec(id', t', _, _)) => id' == id && t' == t
    case (LayerNormSpec(id, t, s, lo, hi, m), LayerNormRec(id', t', _, _, s', lo', hi', m')) =>
      id' == id && t' == t && s' == s && lo' == lo && hi' == hi && m' == m
    case _ => false
  }

  /** What a record says about its op, its values apart from their number left out. */
  function StaticPart(rec: OpRecord): OpSpec {
    match rec
    case LinearRec(id, w, b, x, y) => LinearSpec(id, w, b, |y|, |x|)
    case RequantRec(id, _, _, s, z, lo, hi, r) => RequantSpec(id, s, z, lo, hi, r)
    case ActivationRec(id, t, _, _) => ActivationSpec(id, t)
    case LayerNormRec(id, t, _, _, s, lo, hi, r) => LayerNormSpec(id, t, s, lo, hi, r)
  }

  lemma ConformsIff(spec: OpSpec, rec: OpRecord)
    ensures Conforms(spec, rec) <==> spec == StaticPart(rec)
  {
  }

  /** The first index at which record and spec disagree. */
  function FirstMismatch(ops: seq<OpSpec>, trace: seq<OpRecord>, i: nat): (r: Option<nat>)
    requires |ops| == |trace| && i <= |ops|
    ensures r.None? <==> forall j :: i <= j < |ops| ==> Conforms(ops[j], trace[j])
    decreases |ops| - i
  {
    if i == |ops| then None
    else if !Conforms(ops[i], trace[i]) then Some(i)
    else FirstMismatch(ops, trace, i + 1)
  }

  function CheckConformance(ops: seq<OpSpec>, trace: seq<OpRecord>): Result<(), Error> {
    if |ops| != |trace| then Err(V.GraphMismatch(Min(|ops|, |trace|)))
    else
      var bad := FirstMismatch(ops, trace, 0);
      if bad.Some? then Err(V.GraphMismatch(bad.value)) else Ok(())
  }

  // ---------------------------------------------------------------------- the walk

  function DecodeAll(history: seq<int>): (x: seq<int>)
    ensures |x| == |history|
  {
    seq(|history|, i requires 0 <= i < |history| => Field.Decode(history[i]))
  }

  function DecodeInput(p: PublicInput): Result<seq<int>, Error> {
    var hist :- p.latentHistoryPublic.OkOr(V.PublicInputMismatch);
    Ok(DecodeAll(hist))
  }

  type Walk = Result<(seq<int>, Challenges), Error>

  function WalkTrace(h: HashFn, ch: Challenges, ws: seq<TensorT>, ts: seq<ActivationTable>, trace: seq<OpRecord>,
                     start: seq<int>): Walk
  {
    if |trace| == 0 then Ok((start, ch))
    else
      var n := |trace| - 1;
      var (current, ch') :- WalkTrace(h, ch, ws, ts, trace[..n], start);
      if trace[n].input != current then Err(V.WiringMismatch(n))
      else
        var ch'' :- CheckRecord(h, ch', ws, ts, trace[n]);
        Ok((trace[n].output, ch''))
  }

  /** Gates and recomputed commitments. */
  function CheckCommitments(h: HashFn, a: AuditArtifact): Result<(), Error> {
    var p := a.publicInput;
    var _ :- V.Expect(a.version == ARTIFACT_VERSION, V.UnsupportedArtifactVersion(a.version));
    var _ :- V.Expect(p.relationId == RelationId(h, RELATION_MLP), V.UnsupportedRelation);
    var _ :- V.Expect(p.statementType == P0Step, V.RelationMismatch);
    var _ :- V.Expect(ModelCommitment(h, GraphCommitment(h, a.graph), WeightsRoot(h, a.weights)) == p.modelCommitment,
                      V.CommitmentMismatch(V.CommitmentKind.ModelCommitment));
    var _ :- V.Expect(QuantCommitment(h, a.scales, a.tables) == p.quantizationCommitment,
                      V.CommitmentMismatch(V.Quantization));
    V.Expect(PlannerSentinel(h) == p.plannerConfigCommitment, V.CommitmentMismatch(V.Planner))
  }

  /** The same, then graph conformance: all before the walk. */
  function CheckStatement(h: HashFn, a: AuditArtifact): Result<(), Error> {
    var _ :- CheckCommitments(h, a);
    CheckConformance(a.graph, a.trace)
  }

  /** The claimed output equals the computed one and is the committed one. */
  function CheckOutput(h: HashFn, a: AuditArtifact, current: seq<int>): Result<(), Error> {
    var _ :- V.Expect(a.claimedOutput.Values() == current, V.OutputMismatch);
    var rebuilt :- OutputTensor(a.claimedOutput.tensorId, a.claimedOutput.scaleId, current).OkOr(V.Encoding);
    V.Expect(OutputCommitment(h, rebuilt) == a.publicInput.claimedOutputCommitment, V.OutputCommitmentMismatch)
  }

  function VerifyWith(h: HashFn, a: AuditArtifact, ch: Challenges): Result<(), Error> {
    var _ :- CheckStatement(h, a);
    var start :- DecodeInput(a.publicInput);
    var _ :- V.Expect(|a.trace| == 0 || a.trace[0].input == start, V.PublicInputMismatch);
    var (current, _) :- WalkTrace(h, ch, a.weights, a.tables, a.trace, start);
    CheckOutput(h, a, current)
  }

  // ------------------------------------------------------------------ the four modes

  function AuditTranscript(h: HashFn, p: PublicInput, traceRoot: Digest): Digest {
    AbsorbAll(h, FsStart(h), InitEntries(h, p) + [Entry(Ascii("trace_root"), traceRoot)])
  }

  function FiatStart(h: HashFn, a: AuditArtifact): Challenges {
    Fiat(AuditTranscript(h, a.publicInput, TraceRoot(h, a.trace)))
  }

  function Verify(h: HashFn, a: AuditArtifact): Result<(), Error> {
    VerifyWith(h, a, FiatStart(h, a))
  }

  function VerifyInteractive(h: HashFn, a: AuditArtifact, rs: seq<seq<Field.Fp>>): Result<(), Error> {
    VerifyWith(h, a, Secret(rs, 0))
  }

  // --------------------------------------------------------- the imperative verifier

  /** `Challenges` with the cursor updated in place. */
  class Challenger {
    const h: HashFn
    var ch: Challenges

    constructor (h: HashFn, ch: Challenges)
      ensures this.h == h && this.ch == ch
    {
      this.h := h;
      this.ch := ch;
    }

    method LinearStep(ws: seq<TensorT>, rec: OpRecord) returns (r: Result<Option<Challenge>, Error>)
      requires rec.LinearRec?
      modifies this
      ensures var spec := Next(h, old(ch), ws, rec);
              if spec.Ok? then r == Ok(spec.value.0) && ch == spec.value.1 else r == Err(spec.error)
    {
      hide WeightI8, ChallengeVec, SqueezeState, VOf;
      match ch {
        case Fiat(st) =>
          var m :- WeightI8(ws, rec.weightId);
          var (w, rows, cols) := m;
          var rv := ChallengeVec(h, st, V.FREIVALDS_R, rows);
          ch := Fiat(SqueezeState(h, st, V.FREIVALDS_R));
          var v := PrecomputeV(rv, w, rows, cols);
          return Ok(Some((rv, v)));
        case Secret(rs, idx) =>
          var m :- WeightI8(ws, rec.weightId);
          var (w, rows, cols) := m;
          if idx >= |rs| || |rs[idx]| != rows { return Err(V.FreivaldsCheckFailed(rec.opId)); }
          ch := Secret(rs, idx + 1);
          var v := PrecomputeV(rs[idx], w, rows, cols);
          return Ok(Some((rs[idx], v)));
        case Batched(rmap, vmap) =>
          if rec.weightId !in rmap || rec.weightId !in vmap { return Err(V.FreivaldsCheckFailed(rec.opId)); }
          return Ok(Some((rmap[rec.weightId], vmap[rec.weightId])));
        case Sampled(st, picked, i) =>
          ch := Sampled(st, picked, i + 1);
          if i !in picked { return Ok(None); }
          var m :- WeightI8(ws, rec.weightId);
          var (w, rows, cols) := m;
          var rv := ChallengeVec(h, st, V.FREIVALDS_R, rows);
          ch := Sampled(SqueezeState(h, st, V.FREIVALDS_R), picked, i + 1);
          var v := PrecomputeV(rv, w, rows, cols);
          return Ok(Some((rv, v)));
      }
    }
  }

  method CheckLinearOp(ws: seq<TensorT>, rec: OpRecord, c: Challenge) returns (r: Result<(), Error>)
    requires rec.LinearRec?
    ensures r == CheckLinearRec(ws, rec, c)
  {
    var m :- WeightI8(ws, rec.weightId);
    var (_, rows, cols) := m;
    var (rv, v) := c;
    if |rv| != rows || |v| != cols || |rec.output| != rows || |rec.input| != cols {
      return Err(V.FreivaldsCheckFailed(rec.opId));
    }
    var bias :- BiasOf(ws, rec.biasId, rows);
    var _ :- V.RangeGuard(rec.opId, cols, rec.input, bias, rec.output);
    var ok := CheckLinear(v, rec.input, bias, rv, rec.output);
    return V.Expect(ok, V.FreivaldsCheckFailed(rec.opId));
  }

  /** The walk as the verifier runs it: one running activation, one cursor. */
  method WalkLoop(a: AuditArtifact, c: Challenger, start: seq<int>) returns (r: Result<seq<int>, Error>)
    modifies c
    ensures var spec := WalkTrace(c.h, old(c.ch), a.weights, a.tables, a.trace, start);
            r == if spec.Ok? then Ok(spec.value.0) else Err(spec.error)
  {
    var current := start;
    for i := 0 to |a.trace|
      invariant WalkTrace(c.h, old(c.ch), a.weights, a.tables, a.trace[..i], start) == Ok((current, c.ch))
    {
      var rec := a.trace[i];
      assert a.trace[..i + 1][..i] == a.trace[..i];
      if rec.input != current {
        WalkStuck(c.h, old(c.ch), a.weights, a.tables, a.trace, start, i + 1);
        return Err(V.WiringMismatch(i));
      }
      var checked := CheckOne(a, c, rec);
      if checked.Err? {
        WalkStuck(c.h, old(c.ch), a.weights, a.tables, a.trace, start, i + 1);
        return Err(checked.error);
      }
      current := rec.output;
    }
    assert a.trace[..|a.trace|] == a.trace;
    r := Ok(current);
  }

  method CheckOne(a: AuditArtifact, c: Challenger, rec: OpRecord) returns (r: Result<(), Error>)
    modifies c
    ensures var spec := CheckRecord(c.h, old(c.ch), a.weights, a.tables, rec);
            if spec.Ok? then r == Ok(()) && c.ch == spec.value else r == Err(spec.error)
  {
    if rec.LinearRec? {
      var ch :- c.LinearStep(a.weights, rec);
      if ch.Some? {
        r := CheckLinearOp(a.weights, rec, ch.value);
      } else {
        r := Ok(());
      }
    } else if rec.ActivationRec? {
      var t :- FindTable(a.tables, rec.tableId).OkOr(V.MissingBinding(V.Table));
      if |rec.input| != |rec.output| { return Err(V.ExactReplayMismatch(rec.opId)); }
      r := V.CheckLookupsLoop(t, rec.input, rec.output, V.ExactReplayMismatch(rec.opId));
    } else {
      r := CheckExactRec(a.weights, a.tables, rec);
    }
  }

  lemma {:induction false} WalkStuck(h: HashFn, ch: Challenges, ws: seq<TensorT>, ts: seq<ActivationTable>,
                                     trace: seq<OpRecord>, start: seq<int>, i: nat)
    requires i <= |trace| && WalkTrace(h, ch, ws, ts, trace[..i], start).Err?
    ensures WalkTrace(h, ch, ws, ts, trace, start) == WalkTrace(h, ch, ws, ts, trace[..i], start)
  {
    if i < |trace| {
      assert trace[..|trace| - 1][..i] == trace[..i];
      WalkStuck(h, ch, ws, ts, trace[..|trace| - 1], start, i);
    } else {
      assert trace[..i] == trace;
    }
  }

  method ConformanceLoop(ops: seq<OpSpec>, trace: seq<OpRecord>) returns (r: Result<(), Error>)
    ensures r == CheckConformance(ops, trace)
  {
    if |ops| != |trace| { return Err(V.GraphMismatch(Min(|ops|, |trace|))); }
    for i := 0 to |ops|
      invariant FirstMismatch(ops, trace, i) == FirstMismatch(ops, trace, 0)
    {
      if !Conforms(ops[i], trace[i]) { return Err(V.GraphMismatch(i)); }
    }
    r := Ok(());
  }

  method VerifyWithRun(a: AuditArtifact, c: Challenger) returns (r: Result<(), Error>)
    modifies c
    ensures r == VerifyWith(c.h, a, old(c.ch))
  {
    var _ :- CheckCommitments(c.h, a);
    var _ :- ConformanceLoop(a.graph, a.trace);
    var start :- DecodeInput(a.publicInput);
    var _ :- V.Expect(|a.trace| == 0 || a.trace[0].input == start, V.PublicInputMismatch);
    var current :- WalkLoop(a, c, start);
    return CheckOutput(c.h, a, current);
  }
}
