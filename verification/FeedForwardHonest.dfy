/**
 * Completeness of the feed-forward audit: what the prover assembles is exact, so every
 * challenge accepts it, provided its operands and shifts are in range.
 */
module FeedForwardHonest {
  import opened Wrappers
  import opened Arith
  import opened Bytes
  import opened FixedPoint
  import opened Kernels
  import opened Tensors
  import opened Freivalds
  import opened Soundness
  import opened Commitments
  import opened Traces
  import opened FeedForward
  import opened FeedForwardVerifier
  import opened FeedForwardAudit
  import V = BlockVerifier
  import P = BlockProver
  import A = BlockAudit
  import Field

  /** Tensors sharing an id are the same tensor. */
  predicate IdsAgree(ws: seq<TensorT>) {
    forall t, u :: t in ws && u in ws && t.tensorId == u.tensorId ==> t == u
  }

  lemma {:induction false} FindResolves(ws: seq<TensorT>, t: TensorT)
    requires IdsAgree(ws) && t in ws
    ensures FindTensor(ws, t.tensorId) == Some(t)
  {
    if ws[0].tensorId != t.tensorId {
      FindResolves(ws[1..], t);
    }
  }

  /** The guards an honest record has to be inside of. */
  predicate InRange(ws: seq<TensorT>, rec: OpRecord) {
    match rec
    case LinearRec(_, _, _, x, y) =>
      OperandsOf(ws, rec).Some? ==>
        var o := OperandsOf(ws, rec).value;
        Guarded(o.cols, x, o.bias, y)
    case RequantRec(_, _, _, shift, _, _, _, _) => ValidShift(shift)
    case LayerNormRec(_, _, _, _, shift, _, _, _) => ValidShift(shift)
    case ActivationRec(_, _, _, _) => true
  }

  predicate AllInRange(ws: seq<TensorT>, trace: seq<OpRecord>) {
    forall i :: 0 <= i < |trace| ==> InRange(ws, trace[i])
  }

  /** An honest record conforms, and is exact as soon as it is in range. */
  predicate Faithful(ws: seq<TensorT>, ts: seq<ActivationTable>, spec: OpSpec, rec: OpRecord) {
    Conforms(spec, rec) && HonestLinear(ws, rec) && (ExactRec(ws, ts, rec) <==> InRange(ws, rec))
  }

  /** The run so far: faithful records, wired from the input to the running activation. */
  predicate FaithfulRun(ws: seq<TensorT>, ts: seq<ActivationTable>, g: RunState, input: seq<int>) {
    && |g.ops| == |g.trace|
    && (forall i :: 0 <= i < |g.ops| ==> Faithful(ws, ts, g.ops[i], g.trace[i]))
    && (ExactWalk(ws, ts, g.trace, input).Some? <==> AllInRange(ws, g.trace))
    && (ExactWalk(ws, ts, g.trace, input).Some? ==> ExactWalk(ws, ts, g.trace, input) == Some(g.current))
  }

  lemma PushFaithful(ws: seq<TensorT>, ts: seq<ActivationTable>, g: RunState, input: seq<int>, op: OpSpec,
                     rec: OpRecord)
    requires FaithfulRun(ws, ts, g, input) && rec.input == g.current && Faithful(ws, ts, op, rec)
    ensures FaithfulRun(ws, ts, g.Push(op, rec), input)
  {
    hide ExactRec, InRange, Conforms, HonestLinear;
    var g' := g.Push(op, rec);
    assert g'.trace[..|g.trace|] == g.trace;
    assert AllInRange(ws, g'.trace) <==> AllInRange(ws, g.trace) && InRange(ws, rec) by {
      if AllInRange(ws, g'.trace) {
        forall i | 0 <= i < |g.trace| ensures InRange(ws, g.trace[i]) { assert g'.trace[i] == g.trace[i]; }
        assert g'.trace[|g.trace|] == rec;
      }
    }
  }

  lemma NormFaithful(ws: seq<TensorT>, ts: seq<ActivationTable>, g: RunState, ln: PreNorm, input: seq<int>)
    requires FaithfulRun(ws, ts, g, input) && NormStep(g, ln, ts).Ok?
    ensures FaithfulRun(ws, ts, NormStep(g, ln, ts).value, input)
  {
    hide FaithfulRun;
    var out := LayerNorm(g.current, FindTable(ts, ln.tableId).value,
                         Kernels.Requant(ln.shift, ln.clampLo, ln.clampHi, ln.rounding)).value;
    PushFaithful(ws, ts, g, input,
      LayerNormSpec(ln.opId, ln.tableId, ln.shift, ln.clampLo, ln.clampHi, Disc(ln.rounding)),
      LayerNormRec(ln.opId, ln.tableId, g.current, out, ln.shift, ln.clampLo, ln.clampHi, Disc(ln.rounding)));
  }

  lemma LinearFaithful(ws: seq<TensorT>, ts: seq<ActivationTable>, g: RunState, l: Layer, input: seq<int>)
    requires FaithfulRun(ws, ts, g, input) && LinearStep(g, l).Ok?
    requires FindTensor(ws, l.weight.tensorId) == Some(l.weight)
    requires l.bias.Some? ==> FindTensor(ws, l.bias.value.tensorId) == l.bias
    ensures FaithfulRun(ws, ts, LinearStep(g, l).value, input)
  {
    hide FaithfulRun;
    MatrixSize(l.weight);
    var rows, cols := l.weight.shape[0], l.weight.shape[1];
    var out := Kernels.Linear(l.weight.Values(), g.current, BiasValues(l, rows)[..rows], rows, cols);
    PushFaithful(ws, ts, g, input,
      LinearSpec(l.linearOpId, l.weight.tensorId, BiasIdOf(l), rows, cols),
      LinearRec(l.linearOpId, l.weight.tensorId, BiasIdOf(l), g.current, out));
  }

  lemma RequantFaithful(ws: seq<TensorT>, ts: seq<ActivationTable>, g: RunState, l: Layer, input: seq<int>)
    requires FaithfulRun(ws, ts, g, input)
    ensures FaithfulRun(ws, ts, RequantStep(g, l), input)
  {
    hide FaithfulRun;
    PushFaithful(ws, ts, g, input,
      RequantSpec(l.requantOpId, l.shift, l.zeroPoint, l.clampLo, l.clampHi, Disc(l.rounding)),
      RequantRec(l.requantOpId, g.current,
                 RequantAll(g.current, l.shift, l.zeroPoint, l.clampLo, l.clampHi, l.rounding),
                 l.shift, l.zeroPoint, l.clampLo, l.clampHi, Disc(l.rounding)));
  }

  lemma ActivationFaithful(ws: seq<TensorT>, ts: seq<ActivationTable>, g: RunState, opId: nat, tableId: nat,
                           input: seq<int>)
    requires FaithfulRun(ws, ts, g, input) && ActivationStep(g, opId, tableId, ts).Ok?
    ensures FaithfulRun(ws, ts, ActivationStep(g, opId, tableId, ts).value, input)
  {
    hide FaithfulRun;
    var t := FindTable(ts, tableId).value;
    var out := EvalAll(t, g.current).value;
    A.LookupsSound(t, g.current, out, V.ExactReplayMismatch(opId));
    PushFaithful(ws, ts, g, input, ActivationSpec(opId, tableId), ActivationRec(opId, tableId, g.current, out));
  }

  lemma LayerFaithful(ws: seq<TensorT>, ts: seq<ActivationTable>, g: RunState, l: Layer, input: seq<int>)
    requires FaithfulRun(ws, ts, g, input) && LayerStep(g, l, ts).Ok?
    requires FindTensor(ws, l.weight.tensorId) == Some(l.weight)
    requires l.bias.Some? ==> FindTensor(ws, l.bias.value.tensorId) == l.bias
    ensures FaithfulRun(ws, ts, LayerStep(g, l, ts).value, input)
  {
    hide FaithfulRun, NormStep, LinearStep, RequantStep, ActivationStep;
    var g1 := if l.preNorm.Some? then NormStep(g, l.preNorm.value, ts).value else g;
    if l.preNorm.Some? { NormFaithful(ws, ts, g, l.preNorm.value, input); }
    LinearFaithful(ws, ts, g1, l, input);
    var g2 := LinearStep(g1, l).value;
    RequantFaithful(ws, ts, g2, l, input);
    var g3 := RequantStep(g2, l);
    if l.activation.Some? { ActivationFaithful(ws, ts, g3, l.activation.value.0, l.activation.value.1, input); }
  }

  /** Every layer's tensors resolve to themselves. */
  predicate Resolved(ws: seq<TensorT>, layers: seq<Layer>) {
    forall i :: 0 <= i < |layers| ==>
      && FindTensor(ws, layers[i].weight.tensorId) == Some(layers[i].weight)
      && (layers[i].bias.Some? ==> FindTensor(ws, layers[i].bias.value.tensorId) == layers[i].bias)
  }

  lemma RunFaithful(ws: seq<TensorT>, ts: seq<ActivationTable>, layers: seq<Layer>, input: seq<int>)
    requires Resolved(ws, layers) && RunLayers(layers, ts, input).Ok?
    ensures FaithfulRun(ws, ts, RunLayers(layers, ts, input).value, input)
    decreases |layers|
  {
    hide LayerStep;
    if |layers| == 0 {
      hide Faithful, InRange;
    } else {
      var n := |layers| - 1;
      hide FaithfulRun;
      RunFaithful(ws, ts, layers[..n], input);
      LayerFaithful(ws, ts, RunLayers(layers[..n], ts, input).value, layers[n], input);
    }
  }

  lemma {:induction false} TensorListed(layers: seq<Layer>, i: nat)
    requires i < |layers|
    ensures layers[i].weight in WeightTensors(layers)
    ensures layers[i].bias.Some? ==> layers[i].bias.value in WeightTensors(layers)
  {
    if i < |layers| - 1 { TensorListed(layers[..|layers| - 1], i); }
  }

  lemma ModelResolves(layers: seq<Layer>)
    requires IdsAgree(WeightTensors(layers))
    ensures Resolved(WeightTensors(layers), layers)
  {
    hide IdsAgree, WeightTensors;
    forall i | 0 <= i < |layers|
      ensures FindTensor(WeightTensors(layers), layers[i].weight.tensorId) == Some(layers[i].weight)
           && (layers[i].bias.Some? ==>
                 FindTensor(WeightTensors(layers), layers[i].bias.value.tensorId) == layers[i].bias)
    {
      TensorListed(layers, i);
      FindResolves(WeightTensors(layers), layers[i].weight);
      if layers[i].bias.Some? { FindResolves(WeightTensors(layers), layers[i].bias.value); }
    }
  }

  // ------------------------------------------------------------- what a model fixes

  /** The length of a run's output: the rows of the last layer, or the input's own. */
  function OutputLength(layers: seq<Layer>, inputLength: nat): nat {
    var n := |layers| - 1;
    if n >= 0 && |layers[n].weight.shape| == 2 then layers[n].weight.shape[0] else inputLength
  }

  lemma RunLength(layers: seq<Layer>, tables: seq<ActivationTable>, input: seq<int>)
    requires RunLayers(layers, tables, input).Ok?
    ensures |RunLayers(layers, tables, input).value.current| == OutputLength(layers, |input|)
  {
  }

  /** Every weight matrix is int8. */
  predicate Int8Layers(layers: seq<Layer>) {
    forall i :: 0 <= i < |layers| ==> Int8(layers[i].weight.Values())
  }

  /** Every linear record names the weight of one of the layers. */
  predicate NamesLayers(layers: seq<Layer>, trace: seq<OpRecord>) {
    forall i :: 0 <= i < |trace| && trace[i].LinearRec? ==>
      exists j :: 0 <= j < |layers| && trace[i].weightId == layers[j].weight.tensorId
  }

  lemma LayerNames(g: RunState, l: Layer, tables: seq<ActivationTable>)
    requires LayerStep(g, l, tables).Ok?
    ensures var t := LayerStep(g, l, tables).value.trace;
            && g.trace <= t
            && forall i :: |g.trace| <= i < |t| && t[i].LinearRec? ==> t[i].weightId == l.weight.tensorId
  {
    hide LayerNorm, Kernels.Linear, RequantAll, EvalAll, FirstOutside, FindTable, BiasValues, BiasIdOf, Disc;
    var g1 := if l.preNorm.Some? then NormStep(g, l.preNorm.value, tables).value else g;
    var g2 := LinearStep(g1, l).value;
    var g3 := RequantStep(g2, l);
    assert g.trace <= g1.trace && g2.trace == g1.trace + [g2.trace[|g1.trace|]];
    assert g3.trace == g2.trace + [g3.trace[|g2.trace|]];
  }

  lemma {:induction false} RunNames(layers: seq<Layer>, tables: seq<ActivationTable>, input: seq<int>)
    requires RunLayers(layers, tables, input).Ok?
    ensures NamesLayers(layers, RunLayers(layers, tables, input).value.trace)
  {
    hide LayerStep;
    if |layers| > 0 {
      var n := |layers| - 1;
      RunNames(layers[..n], tables, input);
      LayerNames(RunLayers(layers[..n], tables, input).value, layers[n], tables);
    }
  }

  lemma TraceInt8(ws: seq<TensorT>, layers: seq<Layer>, trace: seq<OpRecord>)
    requires Resolved(ws, layers) && NamesLayers(layers, trace) && Int8Layers(layers)
    ensures Int8Trace(ws, trace)
  {
    forall i | 0 <= i < |trace| && trace[i].LinearRec? ensures Int8Rec(ws, trace[i]) {
      var j :| 0 <= j < |layers| && trace[i].weightId == layers[j].weight.tensorId;
      assert FindTensor(ws, layers[j].weight.tensorId) == Some(layers[j].weight);
    }
  }

  // ------------------------------------------------------------------ the artifact

  /** Honest linears never escape: there is no wrong accumulator to accept. */
  lemma {:induction false} HonestNeverEscapes(h: HashFn, ch: Challenges, ws: seq<TensorT>, ts: seq<ActivationTable>,
                                              trace: seq<OpRecord>, start: seq<int>)
    requires forall i :: 0 <= i < |trace| ==> HonestLinear(ws, trace[i])
    ensures !WalkEscapes(h, ch, ws, ts, trace, start)
  {
    hide WalkTrace, Next;
    if |trace| != 0 {
      HonestNeverEscapes(h, ch, ws, ts, trace[..|trace| - 1], start);
    }
  }

  lemma InputDecodes(x: seq<int>)
    requires EncodeInput(x).Ok?
    ensures DecodeAll(EncodeInput(x).value) == x
  {
  }

  lemma HonestStatement(h: HashFn, m: Model, input: seq<int>, ob: OutputBinding)
    requires ProveFeedforward(h, m, input, ob).Ok?
    requires var run := RunLayers(m.layers, m.tables, input);
             run.Ok? && |run.value.ops| == |run.value.trace|
             && forall i :: 0 <= i < |run.value.ops| ==> Conforms(run.value.ops[i], run.value.trace[i])
    ensures CheckStatement(h, ProveFeedforward(h, m, input, ob).value).Ok?
  {
    hide RunLayers, OutputTensor, EncodeInput, ModelCommitment, QuantCommitment, PlannerSentinel, RelationId, Conforms;
  }

  lemma HonestOutput(h: HashFn, m: Model, input: seq<int>, ob: OutputBinding)
    requires ProveFeedforward(h, m, input, ob).Ok?
    ensures var a := ProveFeedforward(h, m, input, ob).value;
            CheckOutput(h, a, RunLayers(m.layers, m.tables, input).value.current).Ok?
    ensures DecodeInput(ProveFeedforward(h, m, input, ob).value.publicInput) == Ok(input)
  {
    InputDecodes(input);
    hide RunLayers, EncodeInput, DecodeAll, OutputCommitment;
    var run := RunLayers(m.layers, m.tables, input).value;
    var t := OutputTensor(ob.tensorId, ob.scaleId, run.current).value;
    assert t.scaleId == ob.scaleId;
    hide OutputTensor;
  }

  /** Honest records are settled, and no challenge escapes on them. */
  lemma HonestVerdict(h: HashFn, a: AuditArtifact, ch: Challenges)
    requires Int8Trace(a.weights, a.trace) && forall i :: 0 <= i < |a.trace| ==> HonestLinear(a.weights, a.trace[i])
    requires DecodeInput(a.publicInput).Ok? ==>
               Supplies(h, ch, a.weights, a.tables, a.trace, DecodeInput(a.publicInput).value)
    ensures VerifyWith(h, a, ch).Ok? <==> ExactVerify(h, a)
  {
    hide VerifyWith, ExactVerify, Supplies, WalkEscapes, HonestLinear, Int8Rec, BoundRec;
    if DecodeInput(a.publicInput).Ok? {
      HonestNeverEscapes(h, ch, a.weights, a.tables, a.trace, DecodeInput(a.publicInput).value);
    }
    SettledVerdict(h, a, ch);
  }

  /** What proving a model yields: honest int8 records, exact as soon as they are in range. */
  lemma ProvedIsHonest(h: HashFn, m: Model, input: seq<int>, ob: OutputBinding, a: AuditArtifact)
    requires ProveFeedforward(h, m, input, ob) == Ok(a)
    requires IdsAgree(WeightTensors(m.layers)) && Int8Layers(m.layers)
    ensures Int8Trace(a.weights, a.trace) && forall i :: 0 <= i < |a.trace| ==> HonestLinear(a.weights, a.trace[i])
    ensures DecodeInput(a.publicInput) == Ok(input) && (ExactVerify(h, a) <==> AllInRange(a.weights, a.trace))
    ensures |a.claimedOutput.Values()| == OutputLength(m.layers, |input|)
  {
    hide RunLayers, CheckStatement, CheckOutput, WeightTensors, IdsAgree, Int8Layers, Int8Rec, ExactWalk, InRange,
         AllInRange,
         P0PublicInput, OutputTensor, EncodeInput, DecodeInput, HonestLinear, Conforms, ExactRec, NamesLayers, Resolved;
    ModelResolves(m.layers);
    RunFaithful(a.weights, a.tables, m.layers, input);
    RunNames(m.layers, m.tables, input);
    RunLength(m.layers, m.tables, input);
    TraceInt8(a.weights, m.layers, a.trace);
    HonestStatement(h, m, input, ob);
    HonestOutput(h, m, input, ob);
  }

  /**
   * Feed-forward completeness: whatever the source of challenges, as long as it supplies
   * one per linear, the proof of an int8 model whose tensor ids agree is accepted exactly
   * when every operand and shift is in range.
   */
  lemma CompleteUnder(h: HashFn, m: Model, input: seq<int>, ob: OutputBinding, a: AuditArtifact, ch: Challenges)
    requires ProveFeedforward(h, m, input, ob) == Ok(a)
    requires IdsAgree(WeightTensors(m.layers)) && Int8Layers(m.layers)
    requires Supplies(h, ch, a.weights, a.tables, a.trace, input)
    ensures VerifyWith(h, a, ch).Ok? <==> AllInRange(a.weights, a.trace)
  {
    ProvedIsHonest(h, m, input, ob, a);
    hide *;
    HonestVerdict(h, a, ch);
  }

  /** The Fiat-Shamir audit always supplies. */
  lemma FeedForwardComplete(h: HashFn, m: Model, input: seq<int>, ob: OutputBinding, a: AuditArtifact)
    requires ProveFeedforward(h, m, input, ob) == Ok(a)
    requires IdsAgree(WeightTensors(m.layers)) && Int8Layers(m.layers)
    ensures Verify(h, a).Ok? <==> AllInRange(a.weights, a.trace)
    ensures ExactVerify(h, a) <==> AllInRange(a.weights, a.trace)
  {
    hide ProveFeedforward, IdsAgree, Int8Layers, VerifyWith, AllInRange, Supplies, ExactVerify;
    ProvedIsHonest(h, m, input, ob, a);
    FiatSupplies(h, FiatStart(h, a).state, a.weights, a.tables, a.trace, input);
    CompleteUnder(h, m, input, ob, a, FiatStart(h, a));
  }
}
