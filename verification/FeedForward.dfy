/**
 * crates/pwm-export/src/reference.rs and crates/pwm-prover/src/lib.rs: the reference
 * run that builds trace, graph and output together, and the proof assembled from it.
 */
module FeedForward {
  import opened Wrappers
  import opened Arith
  import opened Bytes
  import opened FixedPoint
  import opened Kernels
  import opened Tensors
  import opened Commitments
  import opened Traces
  import P = BlockProver
  import Field

  datatype PreNorm = PreNorm(opId: nat, tableId: nat, shift: nat, clampLo: int, clampHi: int, rounding: Rounding)

  datatype Layer = Layer(
    preNorm: Option<PreNorm>,
    linearOpId: nat, weight: TensorT, bias: Option<TensorT>,
    requantOpId: nat, shift: nat, zeroPoint: int, clampLo: int, clampHi: int, rounding: Rounding,
    activation: Option<(nat, nat)>)

  datatype Model = Model(layers: seq<Layer>, tables: seq<ActivationTable>, scales: seq<Scale>)

  datatype ReferenceError =
    | BadWeightShape(opId: nat)
    | ShapeMismatch(opId: nat, expected: nat, got: nat)
    | NoTable(tableId: nat)
    | TableDomain(tableId: nat, x: int)
    | LayerNormDomain(opId: nat)
    | Panic        // an index past the end of a bias shorter than the output

  function Disc(r: Rounding): nat {
    match r
    case NearestTiesToEven => 0
    case TruncateTowardZero => 1
  }

  /** The discriminant byte names exactly one mode. */
  lemma DiscNames(d: nat, r: Rounding)
    ensures FromDiscriminant(d) == Some(r) <==> d == Disc(r)
  {
  }

  // ------------------------------------------------------------- one layer at a time

  /** The run so far: records, specs, running activation. */
  datatype RunState = RunState(ops: seq<OpSpec>, trace: seq<OpRecord>, current: seq<int>) {
    function Push(op: OpSpec, rec: OpRecord): RunState {
      RunState(ops + [op], trace + [rec], rec.output)
    }
  }

  type Step = Result<RunState, ReferenceError>

  function NormStep(g: RunState, ln: PreNorm, tables: seq<ActivationTable>): Step {
    var t :- FindTable(tables, ln.tableId).OkOr(NoTable(ln.tableId));
    var rq := Kernels.Requant(ln.shift, ln.clampLo, ln.clampHi, ln.rounding);
    var out :- LayerNorm(g.current, t, rq).OkOr(LayerNormDomain(ln.opId));
    Ok(g.Push(LayerNormSpec(ln.opId, ln.tableId, ln.shift, ln.clampLo, ln.clampHi, Disc(ln.rounding)),
              LayerNormRec(ln.opId, ln.tableId, g.current, out, ln.shift, ln.clampLo, ln.clampHi, Disc(ln.rounding))))
  }

  function BiasValues(l: Layer, rows: nat): seq<int> {
    if l.bias.Some? then l.bias.value.Values() else Zeros(rows)
  }

  function BiasIdOf(l: Layer): Option<nat> {
    if l.bias.Some? then Some(l.bias.value.tensorId) else None
  }

  function LinearStep(g: RunState, l: Layer): Step {
    if |l.weight.shape| != 2 then Err(BadWeightShape(l.linearOpId))
    else
      MatrixSize(l.weight);
      var rows, cols := l.weight.shape[0], l.weight.shape[1];
      if |g.current| != cols then Err(ShapeMismatch(l.linearOpId, cols, |g.current|))
      else if |BiasValues(l, rows)| < rows then Err(Panic)
      else
        var out := Kernels.Linear(l.weight.Values(), g.current, BiasValues(l, rows)[..rows], rows, cols);
        Ok(g.Push(LinearSpec(l.linearOpId, l.weight.tensorId, BiasIdOf(l), rows, cols),
                  LinearRec(l.linearOpId, l.weight.tensorId, BiasIdOf(l), g.current, out)))
  }

  function RequantStep(g: RunState, l: Layer): RunState {
    g.Push(RequantSpec(l.requantOpId, l.shift, l.zeroPoint, l.clampLo, l.clampHi, Disc(l.rounding)),
           RequantRec(l.requantOpId, g.current,
                      RequantAll(g.current, l.shift, l.zeroPoint, l.clampLo, l.clampHi, l.rounding),
                      l.shift, l.zeroPoint, l.clampLo, l.clampHi, Disc(l.rounding)))
  }

  /** The first entry outside the table, if any. */
  function FirstOutside(t: ActivationTable, xs: seq<int>): (r: Option<int>)
    ensures r.None? <==> EvalAll(t, xs).Some?
  {
    if |xs| == 0 then None
    else
      var r := FirstOutside(t, xs[..|xs| - 1]);
      if r.Some? then r else if t.Eval(xs[|xs| - 1]).None? then Some(xs[|xs| - 1]) else None
  }

  /** The reported entry stands at `i`, and every entry before it is inside the table. */
  lemma {:induction false} FirstOutsideIs(t: ActivationTable, xs: seq<int>) returns (i: nat)
    requires FirstOutside(t, xs).Some?
    ensures i < |xs| && xs[i] == FirstOutside(t, xs).value && t.Eval(xs[i]).None?
    ensures forall j :: 0 <= j < i ==> t.Eval(xs[j]).Some?
  {
    var n := |xs| - 1;
    if FirstOutside(t, xs[..n]).Some? {
      i := FirstOutsideIs(t, xs[..n]);
    } else {
      i := n;
      EvalAllExactly(t, xs[..n]);
    }
  }

  function ActivationStep(g: RunState, opId: nat, tableId: nat, tables: seq<ActivationTable>): Step {
    var t :- FindTable(tables, tableId).OkOr(NoTable(tableId));
    var bad := FirstOutside(t, g.current);
    if bad.Some? then Err(TableDomain(tableId, bad.value))
    else Ok(g.Push(ActivationSpec(opId, tableId), ActivationRec(opId, tableId, g.current, EvalAll(t, g.current).value)))
  }

  function LayerStep(g: RunState, l: Layer, tables: seq<ActivationTable>): Step {
    var g1 :- if l.preNorm.Some? then NormStep(g, l.preNorm.value, tables) else Ok(g);
    var g2 :- LinearStep(g1, l);
    var g3 := RequantStep(g2, l);
    if l.activation.Some? then ActivationStep(g3, l.activation.value.0, l.activation.value.1, tables) else Ok(g3)
  }

  function RunLayers(layers: seq<Layer>, tables: seq<ActivationTable>, input: seq<int>): Step {
    if |layers| == 0 then Ok(RunState([], [], input))
    else
      var g :- RunLayers(layers[..|layers| - 1], tables, input);
      LayerStep(g, layers[|layers| - 1], tables)
  }

  /** The loop over the layers. */
  method Run(m: Model, input: seq<int>) returns (r: Step)
    ensures r == RunLayers(m.layers, m.tables, input)
  {
    hide LayerStep;
    var current := input;
    var ops: seq<OpSpec> := [];
    var trace: seq<OpRecord> := [];
    for i := 0 to |m.layers|
      invariant RunLayers(m.layers[..i], m.tables, input) == Ok(RunState(ops, trace, current))
    {
      assert m.layers[..i + 1][..i] == m.layers[..i];
      var g := LayerStep(RunState(ops, trace, current), m.layers[i], m.tables);
      if g.Err? {
        RunStuck(m.layers, m.tables, input, i + 1);
        return g;
      }
      ops, trace, current := g.value.ops, g.value.trace, g.value.current;
    }
    assert m.layers[..|m.layers|] == m.layers;
    r := Ok(RunState(ops, trace, current));
  }

  lemma {:induction false} RunStuck(layers: seq<Layer>, tables: seq<ActivationTable>, input: seq<int>, i: nat)
    requires i <= |layers| && RunLayers(layers[..i], tables, input).Err?
    ensures RunLayers(layers, tables, input) == RunLayers(layers[..i], tables, input)
  {
    if i < |layers| {
      assert layers[..|layers| - 1][..i] == layers[..i];
      RunStuck(layers[..|layers| - 1], tables, input, i);
    } else {
      assert layers[..i] == layers;
    }
  }

  // --------------------------------------------------------------------- the proof

  datatype AuditArtifact = AuditArtifact(
    version: nat, publicInput: PublicInput, graph: seq<OpSpec>, weights: seq<TensorT>,
    tables: seq<ActivationTable>, scales: seq<Scale>, trace: seq<OpRecord>, claimedOutput: TensorT)

  const ARTIFACT_VERSION := 1
  const RELATION_MLP := "pwm.lewm.mlp.v1"

  datatype OutputBinding = OutputBinding(tensorId: nat, scaleId: nat)

  datatype ProveError = Reference(e: ReferenceError) | InputEncoding(x: int) | Output

  /** All weight and bias tensors, in layer order. */
  function WeightTensors(layers: seq<Layer>): seq<TensorT> {
    if |layers| == 0 then []
    else
      var l := layers[|layers| - 1];
      WeightTensors(layers[..|layers| - 1]) + [l.weight] + (if l.bias.Some? then [l.bias.value] else [])
  }

  /** Every value an exact bounded integer. */
  function ExactCells(values: seq<int>): (r: Option<seq<BoundedInt>>)
    ensures r.Some? <==> forall i :: 0 <= i < |values| ==> Field.InSignedRange(values[i])
    ensures r.Some? ==> |r.value| == |values|
    ensures r.Some? ==> forall i :: 0 <= i < |values| ==> r.value[i] == BoundedInt(values[i], values[i], values[i])
  {
    if |values| == 0 then Some([])
    else
      var n := |values| - 1;
      var init := ExactCells(values[..n]);
      var last := Exact(values[n]);
      if init.None? || last.Err? then None else Some(init.value + [last.value])
  }

  /** `output_tensor`: a vector of exactly bounded cells; the length is cast to u32. */
  function OutputTensor(tensorId: nat, scaleId: nat, values: seq<int>): (t: Option<TensorT>)
    ensures t.Some? ==> t.value.tensorId == tensorId && t.value.scaleId == scaleId && t.value.Values() == values
    ensures t.Some? ==> t.value.shape == [|values|]
    ensures t.Some? ==> forall i :: 0 <= i < |values| ==> t.value.data[i] == BoundedInt(values[i], values[i], values[i])
    ensures t.Some? <==> |values| < TWO32 && forall i :: 0 <= i < |values| ==> Field.InSignedRange(values[i])
  {
    var cells := ExactCells(values);
    if cells.None? then None
    else
      var dim := |values| % TWO32;
      if dim != |values| then None
      else
        assert [dim][..0] == [] && CheckedProduct([dim]) == Some(1 * dim);
        var t: TensorData := Tensor(tensorId, [dim], scaleId, cells.value);
        assert t.Values() == values;
        Some(t)
  }

  /** The public input commits to the claimed tensor, as a vector of exact cells. */
  predicate OutputBound(h: HashFn, p: PublicInput, t: TensorT) {
    var exact := OutputTensor(t.tensorId, t.scaleId, t.Values());
    exact.Some? && p.claimedOutputCommitment == OutputCommitment(h, exact.value)
  }

  /** The input as M31 residues, or the first value out of range. */
  function EncodeInput(x: seq<int>): (r: Result<seq<int>, int>)
    ensures r.Ok? <==> forall i :: 0 <= i < |x| ==> Field.InSignedRange(x[i])
    ensures r.Ok? ==> |r.value| == |x| && forall i :: 0 <= i < |x| ==> Field.Decode(r.value[i]) == x[i]
    ensures r.Err? ==> exists i :: 0 <= i < |x| && x[i] == r.error && !Field.InSignedRange(x[i])
                                   && forall j :: 0 <= j < i ==> Field.InSignedRange(x[j])
  {
    if |x| == 0 then Ok([])
    else
      var init :- EncodeInput(x[..|x| - 1]);
      var last :- Field.TryEncode(x[|x| - 1]).OkOr(x[|x| - 1]);
      Ok(init + [last])
  }

  function P0PublicInput(h: HashFn, m: Model, graph: seq<OpSpec>, history: seq<int>, output: TensorT): PublicInput {
    PublicInput(
      RelationId(h, RELATION_MLP),
      ModelCommitment(h, GraphCommitment(h, graph), WeightsRoot(h, WeightTensors(m.layers))),
      QuantCommitment(h, m.scales, m.tables),
      PlannerSentinel(h),
      P0Step,
      None, Some(history), None, None, None, None,
      OutputCommitment(h, output),
      None, None)
  }

  function ProveFeedforward(h: HashFn, m: Model, input: seq<int>,
                            ob: OutputBinding): Result<AuditArtifact, ProveError>
  {
    var run := RunLayers(m.layers, m.tables, input);
    if run.Err? then Err(Reference(run.error))
    else
      var output :- OutputTensor(ob.tensorId, ob.scaleId, run.value.current).OkOr(Output);
      var history := EncodeInput(input);
      if history.Err? then Err(InputEncoding(history.error))
      else
        Ok(AuditArtifact(ARTIFACT_VERSION, P0PublicInput(h, m, run.value.ops, history.value, output), run.value.ops,
                         WeightTensors(m.layers), m.tables, m.scales, run.value.trace, output))
  }

  // ------------------------------------------------ the meaning of a committed graph

  /** One op of the graph applied to the running activation. */
  function ApplyOp(op: OpSpec, m: P.Bindings, x: seq<int>): Option<seq<int>> {
    match op
    case LinearSpec(_, weightId, biasId, rows, cols) =>
      var w :- FindTensor(m.weights, weightId);
      if w.shape != [rows, cols] || |x| != cols then None
      else
        MatrixSize(w);
        var bias :- P.BiasOf(m, biasId, rows).ToOption();
        if |bias| < rows then None else Some(Kernels.Linear(w.Values(), x, bias[..rows], rows, cols))
    case RequantSpec(_, shift, zeroPoint, lo, hi, rounding) =>
      var mode :- FromDiscriminant(rounding);
      Some(RequantAll(x, shift, zeroPoint, lo, hi, mode))
    case ActivationSpec(_, tableId) =>
      var t :- FindTable(m.tables, tableId);
      EvalAll(t, x)
    case LayerNormSpec(_, tableId, shift, lo, hi, rounding) =>
      var t :- FindTable(m.tables, tableId);
      var mode :- FromDiscriminant(rounding);
      Kernels.LayerNorm(x, t, Kernels.Requant(shift, lo, hi, mode))
  }

  /** The left-to-right composition of the graph's ops. */
  function Compose(ops: seq<OpSpec>, m: P.Bindings, x: seq<int>): Option<seq<int>> {
    if |ops| == 0 then Some(x)
    else
      var y :- Compose(ops[..|ops| - 1], m, x);
      ApplyOp(ops[|ops| - 1], m, y)
  }
}
