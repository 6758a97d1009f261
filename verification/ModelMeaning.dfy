/**
 * What a model computes: the op list its layers spell out, composed from the left over
 * the layers' tensors and the model's tables. The reference run of
 * crates/pwm-export/src/reference.rs emits exactly that list and computes exactly that.
 */
module ModelMeaning {
  import opened Wrappers
  import opened Arith
  import opened Bytes
  import opened FixedPoint
  import opened Kernels
  import opened Tensors
  import opened Commitments
  import opened Traces
  import opened FeedForward
  import opened FeedForwardHonest
  import P = BlockProver

  // ------------------------------------------------------------------ the op list

  function ModeByte(r: Rounding): nat { if r.NearestTiesToEven? then 0 else 1 }

  /** Optional norm, linear, requant, optional activation, with the layer's own parameters. */
  function LayerOps(l: Layer): seq<OpSpec> {
    var (rows, cols) := if |l.weight.shape| == 2 then (l.weight.shape[0], l.weight.shape[1]) else (0, 0);
    (match l.preNorm
     case None => []
     case Some(ln) =>
       [LayerNormSpec(ln.opId, ln.tableId, ln.shift, ln.clampLo, ln.clampHi, ModeByte(ln.rounding))])
    + [LinearSpec(l.linearOpId, l.weight.tensorId, if l.bias.Some? then Some(l.bias.value.tensorId) else None,
                  rows, cols)]
    + [RequantSpec(l.requantOpId, l.shift, l.zeroPoint, l.clampLo, l.clampHi, ModeByte(l.rounding))]
    + (match l.activation
       case None => []
       case Some((opId, tableId)) => [ActivationSpec(opId, tableId)])
  }

  function ModelOps(layers: seq<Layer>): seq<OpSpec> {
    if |layers| == 0 then [] else ModelOps(layers[..|layers| - 1]) + LayerOps(layers[|layers| - 1])
  }

  // ------------------------------------------------------------------ composition

  lemma ComposeOne(op: OpSpec, m: P.Bindings, x: seq<int>)
    ensures Compose([op], m, x) == ApplyOp(op, m, x)
  {
    assert [op][..0] == [];
    hide ApplyOp;
  }

  /** First `a`, then `b`. */
  lemma {:induction false} ComposeAppend(a: seq<OpSpec>, b: seq<OpSpec>, m: P.Bindings, x: seq<int>)
    ensures Compose(a + b, m, x)
         == var y := Compose(a, m, x); if y.Some? then Compose(b, m, y.value) else None
  {
    hide ApplyOp;
    if |b| == 0 {
      assert a + b == a;
    } else {
      var n := |b| - 1;
      assert (a + b)[..|a + b| - 1] == a + b[..n];
      ComposeAppend(a, b[..n], m, x);
    }
  }

  // -------------------------------------------------------------------- step by step

  /** A step that emits these ops and computes their composition, or fails with it. */
  ghost predicate Means(g: RunState, step: Step, ops: seq<OpSpec>, m: P.Bindings) {
    var y := Compose(ops, m, g.current);
    && (step.Ok? <==> y.Some?)
    && (step.Ok? ==> step.value.ops == g.ops + ops && y == Some(step.value.current))
  }

  lemma NormMeans(g: RunState, ln: PreNorm, m: P.Bindings)
    ensures Means(g, NormStep(g, ln, m.tables),
                  [LayerNormSpec(ln.opId, ln.tableId, ln.shift, ln.clampLo, ln.clampHi, Disc(ln.rounding))], m)
  {
    hide LayerNorm;
    ComposeOne(LayerNormSpec(ln.opId, ln.tableId, ln.shift, ln.clampLo, ln.clampHi, Disc(ln.rounding)), m, g.current);
  }

  /** The layer's tensors are the ones its ids find. */
  predicate Found(m: P.Bindings, l: Layer) {
    && FindTensor(m.weights, l.weight.tensorId) == Some(l.weight)
    && (l.bias.Some? ==> FindTensor(m.weights, l.bias.value.tensorId) == l.bias)
  }

  lemma LinearMeans(g: RunState, l: Layer, m: P.Bindings)
    requires Found(m, l) && |l.weight.shape| == 2
    ensures Means(g, LinearStep(g, l),
                  [LinearSpec(l.linearOpId, l.weight.tensorId, BiasIdOf(l), l.weight.shape[0], l.weight.shape[1])], m)
  {
    hide Kernels.Linear;
    var rows, cols := l.weight.shape[0], l.weight.shape[1];
    MatrixSize(l.weight);
    assert l.weight.shape == [rows, cols];
    ComposeOne(LinearSpec(l.linearOpId, l.weight.tensorId, BiasIdOf(l), rows, cols), m, g.current);
  }

  lemma RequantMeans(g: RunState, l: Layer, m: P.Bindings)
    ensures Means(g, Ok(RequantStep(g, l)),
                  [RequantSpec(l.requantOpId, l.shift, l.zeroPoint, l.clampLo, l.clampHi, Disc(l.rounding))], m)
  {
    hide RequantAll;
    ComposeOne(RequantSpec(l.requantOpId, l.shift, l.zeroPoint, l.clampLo, l.clampHi, Disc(l.rounding)), m, g.current);
  }

  lemma ActivationMeans(g: RunState, opId: nat, tableId: nat, m: P.Bindings)
    ensures Means(g, ActivationStep(g, opId, tableId, m.tables), [ActivationSpec(opId, tableId)], m)
  {
    hide EvalAll, FirstOutside;
    ComposeOne(ActivationSpec(opId, tableId), m, g.current);
  }

  /** Two steps in a row. */
  lemma MeansThen(g: RunState, s: Step, t: Step, a: seq<OpSpec>, b: seq<OpSpec>, m: P.Bindings)
    requires Means(g, s, a, m) && (s.Ok? ==> Means(s.value, t, b, m)) && (s.Err? ==> t.Err?)
    ensures Means(g, t, a + b, m)
  {
    ComposeAppend(a, b, m, g.current);
    hide Compose;
    if t.Ok? { assert (g.ops + a) + b == g.ops + (a + b); }
  }

  lemma MeansNothing(g: RunState, m: P.Bindings)
    ensures Means(g, Ok(g), [], m)
  {
    assert g.ops + [] == g.ops;
  }

  lemma LayerMeans(g: RunState, l: Layer, m: P.Bindings)
    requires Found(m, l) && |l.weight.shape| == 2
    ensures Means(g, LayerStep(g, l, m.tables), LayerOps(l), m)
  {
    hide Means, NormStep, LinearStep, RequantStep, ActivationStep, Found;
    var norm := if l.preNorm.Some? then
        var ln := l.preNorm.value;
        [LayerNormSpec(ln.opId, ln.tableId, ln.shift, ln.clampLo, ln.clampHi, Disc(ln.rounding))] else [];
    var linear := [LinearSpec(l.linearOpId, l.weight.tensorId, BiasIdOf(l), l.weight.shape[0], l.weight.shape[1])];
    var requant := [RequantSpec(l.requantOpId, l.shift, l.zeroPoint, l.clampLo, l.clampHi, Disc(l.rounding))];
    var activation := if l.activation.Some? then [ActivationSpec(l.activation.value.0, l.activation.value.1)] else [];
    var s1: Step := if l.preNorm.Some? then NormStep(g, l.preNorm.value, m.tables) else Ok(g);
    if l.preNorm.Some? { NormMeans(g, l.preNorm.value, m); } else { MeansNothing(g, m); }
    var s2: Step := if s1.Ok? then LinearStep(s1.value, l) else s1;
    if s1.Ok? { LinearMeans(s1.value, l, m); }
    MeansThen(g, s1, s2, norm, linear, m);
    var s3: Step := if s2.Ok? then Ok(RequantStep(s2.value, l)) else s2;
    if s2.Ok? { RequantMeans(s2.value, l, m); }
    MeansThen(g, s2, s3, norm + linear, requant, m);
    var s4: Step :=
      if s3.Err? then s3
      else if l.activation.Some? then ActivationStep(s3.value, l.activation.value.0, l.activation.value.1, m.tables)
      else s3;
    if s3.Ok? {
      if l.activation.Some? {
        ActivationMeans(s3.value, l.activation.value.0, l.activation.value.1, m);
      } else {
        MeansNothing(s3.value, m);
      }
    }
    MeansThen(g, s3, s4, norm + linear + requant, activation, m);
    assert LayerOps(l) == norm + linear + requant + activation;
  }

  // ------------------------------------------------------------------- whole models

  predicate AllMatrices(layers: seq<Layer>) {
    forall i :: 0 <= i < |layers| ==> |layers[i].weight.shape| == 2
  }

  lemma NotMatrixFails(g: RunState, l: Layer, tables: seq<ActivationTable>)
    requires |l.weight.shape| != 2
    ensures LayerStep(g, l, tables).Err?
  {
    hide NormStep, RequantStep, ActivationStep;
  }

  lemma {:induction false} LayersMean(layers: seq<Layer>, m: P.Bindings, input: seq<int>)
    requires Resolved(m.weights, layers) && AllMatrices(layers)
    ensures Means(RunState([], [], input), RunLayers(layers, m.tables, input), ModelOps(layers), m)
  {
    if |layers| == 0 {
      MeansNothing(RunState([], [], input), m);
    } else {
      var n := |layers| - 1;
      LayersMean(layers[..n], m, input);
      var before := RunLayers(layers[..n], m.tables, input);
      if before.Ok? {
        assert Found(m, layers[n]);
        LayerMeans(before.value, layers[n], m);
      }
      hide Means, LayerStep, LayerOps;
      MeansThen(RunState([], [], input), before, RunLayers(layers, m.tables, input), ModelOps(layers[..n]),
                LayerOps(layers[n]), m);
    }
  }

  lemma {:induction false} RunNeedsMatrices(layers: seq<Layer>, tables: seq<ActivationTable>, input: seq<int>)
    requires RunLayers(layers, tables, input).Ok?
    ensures AllMatrices(layers)
  {
    hide LayerStep;
    if |layers| > 0 {
      var n := |layers| - 1;
      RunNeedsMatrices(layers[..n], tables, input);
      if |layers[n].weight.shape| != 2 {
        NotMatrixFails(RunLayers(layers[..n], tables, input).value, layers[n], tables);
      }
    }
  }

  /**
   * The meaning of a model: a run succeeds exactly when every weight is a matrix and the
   * composition of the layers' ops is defined on the input. It then emits exactly those
   * ops and ends with exactly that composition.
   */
  lemma RunMeans(layers: seq<Layer>, m: P.Bindings, input: seq<int>)
    requires Resolved(m.weights, layers)
    ensures var run := RunLayers(layers, m.tables, input);
            && (run.Ok? <==> AllMatrices(layers) && Compose(ModelOps(layers), m, input).Some?)
            && (run.Ok? ==>
                  run.value.ops == ModelOps(layers) && Compose(ModelOps(layers), m, input) == Some(run.value.current))
  {
    if RunLayers(layers, m.tables, input).Ok? { RunNeedsMatrices(layers, m.tables, input); }
    if AllMatrices(layers) {
      LayersMean(layers, m, input);
      hide RunLayers, ModelOps, Compose, Resolved;
      assert [] + ModelOps(layers) == ModelOps(layers);
    }
  }

  /** A proof carries the model's own ops, and claims what they compute on the input. */
  lemma ProofMeans(h: HashFn, m: Model, input: seq<int>, ob: OutputBinding, a: AuditArtifact)
    requires ProveFeedforward(h, m, input, ob) == Ok(a) && IdsAgree(WeightTensors(m.layers))
    ensures a.graph == ModelOps(m.layers)
    ensures Compose(ModelOps(m.layers), P.Bindings(WeightTensors(m.layers), m.tables), input)
         == Some(a.claimedOutput.Values())
  {
    ModelResolves(m.layers);
    RunMeans(m.layers, P.Bindings(WeightTensors(m.layers), m.tables), input);
    hide RunLayers, ModelOps, Compose, WeightTensors, IdsAgree, Resolved, EncodeInput, OutputTensor, P0PublicInput;
  }
}
