/**
 * What an accepted feed-forward proof binds: every recomputed field of its public input,
 * and through them the graph, the weights, the scales, the tables and the output. The
 * transcripts bind the trace. Where data is exchanged, a collision of the hash is
 * computed from it.
 */
module FeedForwardBinding {
  import opened Wrappers
  import opened Bytes
  import opened Codec
  import opened Transcripts
  import opened Kernels
  import opened Tensors
  import opened Commitments
  import opened Traces
  import opened FeedForward
  import opened FeedForwardVerifier
  import opened FeedForwardAudit
  import opened FeedForwardHonest
  import opened Planning
  import opened ModelMeaning
  import opened Lookups
  import opened Binding
  import E = EndToEnd
  import P = BlockProver
  import V = BlockVerifier
  import Merkle

  // ------------------------------------------------------------ what acceptance is

  /** Every field of the public input that the verifier recomputes, and the graph of the trace. */
  predicate StatementHolds(h: HashFn, a: AuditArtifact) {
    var p := a.publicInput;
    && a.version == 1 && p.relationId == h(Ascii("pwm.lewm.mlp.v1")) && p.statementType == P0Step
    && p.modelCommitment == ModelCommitment(h, GraphCommitment(h, a.graph), WeightsRoot(h, a.weights))
    && p.quantizationCommitment == QuantCommitment(h, a.scales, a.tables)
    && p.plannerConfigCommitment == PlannerSentinel(h)
    && |a.graph| == |a.trace| && forall i :: 0 <= i < |a.graph| ==> a.graph[i] == StaticPart(a.trace[i])
  }

  lemma StatementIff(h: HashFn, a: AuditArtifact)
    ensures CheckStatement(h, a).Ok? <==> StatementHolds(h, a)
  {
    hide WeightsRoot, ModelCommitment, QuantCommitment, PlannerSentinel, GraphCommitment, Ascii, Conforms, StaticPart;
    if |a.graph| == |a.trace| {
      forall i | 0 <= i < |a.graph| ensures Conforms(a.graph[i], a.trace[i]) <==> a.graph[i] == StaticPart(a.trace[i]) {
        ConformsIff(a.graph[i], a.trace[i]);
      }
    }
  }

  lemma OutputIff(h: HashFn, a: AuditArtifact, current: seq<int>)
    ensures CheckOutput(h, a, current).Ok?
       <==> a.claimedOutput.Values() == current && OutputBound(h, a.publicInput, a.claimedOutput)
  {
    hide OutputTensor, OutputCommitment;
  }

  /**
   * In every mode: each recomputed field agrees, the walk from the decoded public input
   * ends with the claimed values, and the public input commits to them.
   */
  lemma AcceptedIff(h: HashFn, a: AuditArtifact, ch: Challenges)
    ensures VerifyWith(h, a, ch).Ok?
       <==> && StatementHolds(h, a) && OutputBound(h, a.publicInput, a.claimedOutput)
            && DecodeInput(a.publicInput).Ok?
            && var start := DecodeInput(a.publicInput).value;
            && (|a.trace| > 0 ==> a.trace[0].input == start)
            && var walk := WalkTrace(h, ch, a.weights, a.tables, a.trace, start);
               walk.Ok? && walk.value.0 == a.claimedOutput.Values()
  {
    StatementIff(h, a);
    hide CheckStatement, StatementHolds, CheckOutput, OutputBound, WalkTrace;
    if DecodeInput(a.publicInput).Ok? {
      var walk := WalkTrace(h, ch, a.weights, a.tables, a.trace, DecodeInput(a.publicInput).value);
      if walk.Ok? { OutputIff(h, a, walk.value.0); }
    }
  }

  // --------------------------------------------------------------- graphs and traces

  lemma SpecValueInjective(a: OpSpec, b: OpSpec)
    requires SpecValue(a) == SpecValue(b)
    ensures a == b
  {
    var x, y := SpecValue(a), SpecValue(b);
    SameItems(x, y, |x.payload.items|);
    assert x.tag == y.tag;
    if a.LinearSpec? { OptNatInjective(a.biasId, b.biasId); }
  }

  lemma GraphValueInjective(a: seq<OpSpec>, b: seq<OpSpec>)
    requires GraphValue(a) == GraphValue(b)
    ensures a == b
  {
    hide SpecValue;
    var va, vb := GraphValue(a).items, GraphValue(b).items;
    assert |va| == |vb|;
    forall i | 0 <= i < |a| ensures a[i] == b[i] {
      assert va[i] == SpecValue(a[i]) && vb[i] == SpecValue(b[i]);
      SpecValueInjective(a[i], b[i]);
    }
  }

  predicate GraphFits(ops: seq<OpSpec>) { Typed(Vector(OP_SPEC), GraphValue(ops)) }

  /** The graph commitment binds the op list, whatever its length. */
  function GraphClash(h: HashFn, a: seq<OpSpec>, b: seq<OpSpec>): (c: Pair)
    requires GraphFits(a) && GraphFits(b) && a != b && GraphCommitment(h, a) == GraphCommitment(h, b)
    ensures c.Collides(h)
  {
    assert GraphValue(a) != GraphValue(b) by { if GraphValue(a) == GraphValue(b) { GraphValueInjective(a, b); } }
    ValueClash(h, Tag("pwm.graph.v1"), Vector(OP_SPEC), GraphValue(a), GraphValue(b))
  }

  lemma RecordValueInjective(a: OpRecord, b: OpRecord)
    requires RecordValue(a) == RecordValue(b)
    ensures a == b
  {
    var x, y := RecordValue(a), RecordValue(b);
    SameItems(x, y, |x.payload.items|);
    assert x.tag == y.tag;
    IntsInjective(a.input, b.input);
    IntsInjective(a.output, b.output);
    if a.LinearRec? { OptNatInjective(a.biasId, b.biasId); }
  }

  predicate RecordFits(r: OpRecord) { Typed(OP_RECORD, RecordValue(r)) }

  predicate TraceFits(trace: seq<OpRecord>) { forall i :: 0 <= i < |trace| ==> RecordFits(trace[i]) }

  function RecordInput(r: OpRecord): seq<Byte> { Tag("pwm.tleaf.v1") + Enc(OP_RECORD, RecordValue(r)) }

  lemma RecordInputInjective(a: OpRecord, b: OpRecord)
    requires RecordFits(a) && RecordFits(b) && RecordInput(a) == RecordInput(b)
    ensures a == b
  {
    assert RecordInput(a)[16..] == Enc(OP_RECORD, RecordValue(a));
    assert RecordInput(b)[16..] == Enc(OP_RECORD, RecordValue(b));
    EncInjective(OP_RECORD, RecordValue(a), RecordValue(b));
    RecordValueInjective(a, b);
  }

  /** Different records with the same leaves: the last position at which they differ. */
  function RecordsClash(h: HashFn, a: seq<OpRecord>, b: seq<OpRecord>): (c: Pair)
    requires |a| == |b| && a != b && TraceFits(a) && TraceFits(b) && TraceLeaves(h, a) == TraceLeaves(h, b)
    ensures c.Collides(h)
    decreases |a|
  {
    var n := |a| - 1;
    assert TraceLeaves(h, a)[n] == h(RecordInput(a[n])) && TraceLeaves(h, b)[n] == h(RecordInput(b[n]));
    if a[n] != b[n] then
      assert RecordInput(a[n]) != RecordInput(b[n]) by {
        if RecordInput(a[n]) == RecordInput(b[n]) { RecordInputInjective(a[n], b[n]); }
      }
      Pair(RecordInput(a[n]), RecordInput(b[n]))
    else
      assert a[..n] != b[..n] by { if a[..n] == b[..n] { SameLists(a, b); } }
      assert TraceLeaves(h, a[..n]) == TraceLeaves(h, a)[..n] && TraceLeaves(h, b[..n]) == TraceLeaves(h, b)[..n];
      RecordsClash(h, a[..n], b[..n])
  }

  /** The trace root binds the records at equal length. */
  function TraceRootClash(h: HashFn, a: seq<OpRecord>, b: seq<OpRecord>): (c: Pair)
    requires |a| == |b| && a != b && TraceFits(a) && TraceFits(b) && TraceRoot(h, a) == TraceRoot(h, b)
    ensures c.Collides(h)
  {
    if TraceLeaves(h, a) == TraceLeaves(h, b) then RecordsClash(h, a, b)
    else Merkle.RootClash(h, Tag("pwm.tnode.v1"), TraceLeaves(h, a), TraceLeaves(h, b))
  }

  // ---------------------------------------------------------------------- transcripts

  /**
   * The audit transcript binds the public input and the trace: different ones (traces of
   * one length) with the same state yield a collision.
   */
  function AuditClash(h: HashFn, p: PublicInput, t: seq<OpRecord>, q: PublicInput, u: seq<OpRecord>): (c: Pair)
    requires PublicFits(p) && PublicFits(q) && TraceFits(t) && TraceFits(u) && |t| == |u| && (p != q || t != u)
    requires AuditTranscript(h, p, TraceRoot(h, t)) == AuditTranscript(h, q, TraceRoot(h, u))
    ensures c.Collides(h)
  {
    var a := InitEntries(h, p) + [Entry(Ascii("trace_root"), TraceRoot(h, t))];
    var b := InitEntries(h, q) + [Entry(Ascii("trace_root"), TraceRoot(h, u))];
    if a != b then ChainClash(h, Ascii("pwm.fs.v1"), a, b)
    else
      assert a[1].data == PublicDigest(h, p) && b[1].data == PublicDigest(h, q);
      assert a[2].data == TraceRoot(h, t) && b[2].data == TraceRoot(h, u);
      if p != q then
        assert DigestInput(p) != DigestInput(q) by {
          if DigestInput(p) == DigestInput(q) { DigestInputInjective(p, q); }
        }
        Pair(DigestInput(p), DigestInput(q))
      else TraceRootClash(h, t, u)
  }

  /** Hence the challenges of the Fiat-Shamir audit depend on the public input and the whole trace. */
  function FiatClash(h: HashFn, a: AuditArtifact, b: AuditArtifact): (c: Pair)
    requires PublicFits(a.publicInput) && PublicFits(b.publicInput) && TraceFits(a.trace) && TraceFits(b.trace)
    requires |a.trace| == |b.trace| && (a.publicInput != b.publicInput || a.trace != b.trace)
    requires FiatStart(h, a) == FiatStart(h, b)
    ensures c.Collides(h)
  {
    hide PublicFits, TraceFits, AuditTranscript, TraceRoot;
    AuditClash(h, a.publicInput, a.trace, b.publicInput, b.trace)
  }

  lemma {:induction false} RootEntriesAre(h: HashFn, cs: seq<AuditArtifact>)
    ensures |RootEntries(h, cs)| == |cs| && AllSized(RootEntries(h, cs))
    ensures forall i :: 0 <= i < |cs| ==> RootEntries(h, cs)[i].data == TraceRoot(h, cs[i].trace)
  {
    hide TraceRoot;
    if |cs| > 0 { RootEntriesAre(h, cs[..|cs| - 1]); }
  }

  /** The count, then every candidate's trace root. */
  function BatchEntries(h: HashFn, cs: seq<AuditArtifact>): seq<Entry> {
    [Entry(Ascii("candidates"), LE(|cs|, 8))] + RootEntries(h, cs)
  }

  lemma BatchEntriesAre(h: HashFn, cs: seq<AuditArtifact>)
    ensures BatchState(h, cs) == AbsorbAll(h, InitState(h, Ascii("pwm.batched.v1")), BatchEntries(h, cs))
    ensures |BatchEntries(h, cs)| == |cs| + 1 && AllSized(BatchEntries(h, cs))
    ensures forall i :: 0 <= i < |cs| ==> BatchEntries(h, cs)[i + 1].data == TraceRoot(h, cs[i].trace)
  {
    hide TraceRoot;
    RootEntriesAre(h, cs);
    hide RootEntries, AbsorbAll, InitState;
  }

  /** Traces in the range of their machine types, candidate by candidate of one length. */
  predicate TracesAlike(a: seq<AuditArtifact>, b: seq<AuditArtifact>) {
    |a| == |b| && forall i :: 0 <= i < |a| ==>
                    |a[i].trace| == |b[i].trace| && TraceFits(a[i].trace) && TraceFits(b[i].trace)
  }

  /** The shared transcript binds the trace of every candidate. */
  function BatchClash(h: HashFn, a: seq<AuditArtifact>, b: seq<AuditArtifact>, i: nat): (c: Pair)
    requires TracesAlike(a, b) && i < |a| && a[i].trace != b[i].trace && BatchState(h, a) == BatchState(h, b)
    ensures c.Collides(h)
  {
    hide *;
    BatchTraces(h, a, b, i);
    BatchEntriesAre(h, a);
    BatchEntriesAre(h, b);
    var x, y := BatchEntries(h, a), BatchEntries(h, b);
    if x != y then ChainClash(h, Ascii("pwm.batched.v1"), x, y)
    else TraceRootClash(h, a[i].trace, b[i].trace)
  }

  lemma BatchTraces(h: HashFn, a: seq<AuditArtifact>, b: seq<AuditArtifact>, i: nat)
    requires TracesAlike(a, b) && i < |a|
    ensures |a[i].trace| == |b[i].trace| && TraceFits(a[i].trace) && TraceFits(b[i].trace) && |a| == |b|
  {
    hide TraceFits;
  }

  /** It also binds how many candidates there are. */
  function BatchCountClash(h: HashFn, a: seq<AuditArtifact>, b: seq<AuditArtifact>): (c: Pair)
    requires |a| != |b| && BatchState(h, a) == BatchState(h, b)
    ensures c.Collides(h)
  {
    hide *;
    BatchEntriesAre(h, a);
    BatchEntriesAre(h, b);
    ChainClash(h, Ascii("pwm.batched.v1"), BatchEntries(h, a), BatchEntries(h, b))
  }

  // -------------------------------------------------------------------- substitution

  /** What a public input commits to. */
  datatype Content = Content(
    graph: seq<OpSpec>, weights: seq<TensorT>, scales: seq<Scale>, tables: seq<ActivationTable>, output: TensorT)

  function ContentOf(a: AuditArtifact): Content {
    Content(a.graph, a.weights, a.scales, a.tables, a.claimedOutput)
  }

  predicate CommitsTo(h: HashFn, p: PublicInput, c: Content) {
    && p.modelCommitment == ModelCommitment(h, GraphCommitment(h, c.graph), WeightsRoot(h, c.weights))
    && p.quantizationCommitment == QuantCommitment(h, c.scales, c.tables)
    && OutputBound(h, p, c.output)
  }

  lemma AcceptedCommits(h: HashFn, a: AuditArtifact, ch: Challenges)
    requires VerifyWith(h, a, ch).Ok?
    ensures CommitsTo(h, a.publicInput, ContentOf(a))
  {
    AcceptedIff(h, a, ch);
    hide VerifyWith, OutputBound, DecodeInput, WalkTrace, WeightsRoot, ModelCommitment, QuantCommitment,
         GraphCommitment;
  }

  predicate SameOutput(a: TensorT, b: TensorT) {
    a.tensorId == b.tensorId && a.scaleId == b.scaleId && a.Values() == b.Values()
  }

  /** Same graph, weights and tables in id order, scales and output values. */
  predicate SameContent(a: Content, b: Content) {
    && a.graph == b.graph && InIdOrder(a.weights) == InIdOrder(b.weights)
    && a.scales == b.scales && SortedTables(a.tables) == SortedTables(b.tables) && SameOutput(a.output, b.output)
  }

  predicate OutputFits(t: TensorT) {
    var exact := OutputTensor(t.tensorId, t.scaleId, t.Values());
    exact.Some? ==> Typed(Vector(TENSOR), List([TensorValue(exact.value)]))
  }

  predicate ContentFits(h: HashFn, c: Content) {
    GraphFits(c.graph) && E.TensorsFit(c.weights) && QuantFits(h, c.scales, c.tables) && OutputFits(c.output)
  }

  /** The model commitment binds the graph and, at equal number, the weights. */
  function ModelClash(h: HashFn, a: Content, b: Content): (c: Pair)
    requires ContentFits(h, a) && ContentFits(h, b) && |a.weights| == |b.weights|
    requires a.graph != b.graph || InIdOrder(a.weights) != InIdOrder(b.weights)
    requires ModelCommitment(h, GraphCommitment(h, a.graph), WeightsRoot(h, a.weights))
          == ModelCommitment(h, GraphCommitment(h, b.graph), WeightsRoot(h, b.weights))
    ensures c.Collides(h)
  {
    var x, y := GraphCommitment(h, a.graph), GraphCommitment(h, b.graph);
    var v, w := ModelValue(x, WeightsRoot(h, a.weights)), ModelValue(y, WeightsRoot(h, b.weights));
    if v != w then
      ModelTyped(x, WeightsRoot(h, a.weights));
      ModelTyped(y, WeightsRoot(h, b.weights));
      ValueClash(h, Tag("pwm.model.v1"), MODEL_BINDING, v, w)
    else
      assert v.items[0] == Bits(x) && w.items[0] == Bits(y);
      assert v.items[1] == Bits(WeightsRoot(h, a.weights)) && w.items[1] == Bits(WeightsRoot(h, b.weights));
      if a.graph != b.graph then GraphClash(h, a.graph, b.graph) else WeightsClash(h, a.weights, b.weights)
  }

  /** Two output tensors bound by one public input. */
  function BoundOutputClash(h: HashFn, p: PublicInput, t: TensorT, u: TensorT): (c: Pair)
    requires OutputBound(h, p, t) && OutputBound(h, p, u) && OutputFits(t) && OutputFits(u) && !SameOutput(t, u)
    ensures c.Collides(h)
  {
    var x := OutputTensor(t.tensorId, t.scaleId, t.Values()).value;
    var y := OutputTensor(u.tensorId, u.scaleId, u.Values()).value;
    OutputClash(h, x, y)
  }

  /**
   * Substitution: a public input that commits to two contents that differ in graph,
   * weights, scales, tables or output yields a collision of the hash.
   */
  function ContentClash(h: HashFn, p: PublicInput, a: Content, b: Content): (c: Pair)
    requires CommitsTo(h, p, a) && CommitsTo(h, p, b) && !SameContent(a, b)
    requires ContentFits(h, a) && ContentFits(h, b) && |a.weights| == |b.weights|
    ensures c.Collides(h)
  {
    if a.graph != b.graph || InIdOrder(a.weights) != InIdOrder(b.weights) then ModelClash(h, a, b)
    else if a.scales != b.scales || SortedTables(a.tables) != SortedTables(b.tables)
    then QuantClash(h, a.scales, a.tables, b.scales, b.tables)
    else BoundOutputClash(h, p, a.output, b.output)
  }

  /** An accepted artifact, in any mode, that carries something else than what is committed: the collision. */
  function SubstitutionClash(h: HashFn, a: AuditArtifact, ch: Challenges, committed: Content): (c: Pair)
    requires VerifyWith(h, a, ch).Ok? && CommitsTo(h, a.publicInput, committed) && !SameContent(ContentOf(a), committed)
    requires ContentFits(h, ContentOf(a)) && ContentFits(h, committed) && |a.weights| == |committed.weights|
    ensures c.Collides(h)
  {
    AcceptedCommits(h, a, ch);
    ContentClash(h, a.publicInput, ContentOf(a), committed)
  }

  // ------------------------------------------------------------- committed models

  lemma SameApply(op: OpSpec, m: P.Bindings, n: P.Bindings, x: seq<int>)
    requires E.SameLookups(m, n)
    ensures ApplyOp(op, m, x) == ApplyOp(op, n, x)
  {
    hide RequantAll, EvalAll, Kernels.LayerNorm, Kernels.Linear;
  }

  lemma {:induction false} SameCompose(ops: seq<OpSpec>, m: P.Bindings, n: P.Bindings, x: seq<int>)
    requires E.SameLookups(m, n)
    ensures Compose(ops, m, x) == Compose(ops, n, x)
  {
    hide ApplyOp, E.SameLookups;
    if |ops| > 0 {
      var k := |ops| - 1;
      SameCompose(ops[..k], m, n, x);
      if Compose(ops[..k], m, x).Some? { SameApply(ops[k], m, n, Compose(ops[..k], m, x).value); }
    }
  }

  /**
   * An accepted proof that carries a committed model outputs what the model's run outputs
   * on the decoded public input, unless a challenge escapes. (If it does not carry the
   * committed model, SubstitutionClash computes a collision.)
   */
  lemma AcceptedMeansModel(h: HashFn, a: AuditArtifact, m: Model)
    requires Verify(h, a).Ok? && BoundTrace(a.weights, a.trace) && IdsAgree(WeightTensors(m.layers))
    requires a.graph == ModelOps(m.layers) && AllMatrices(m.layers)
    requires InIdOrder(a.weights) == InIdOrder(WeightTensors(m.layers))
    requires SortedTables(a.tables) == SortedTables(m.tables)
    ensures DecodeInput(a.publicInput).Ok?
    ensures || AuditEscapes(h, a, FiatStart(h, a))
            || (var run := RunLayers(m.layers, m.tables, DecodeInput(a.publicInput).value);
                run.Ok? && run.value.current == a.claimedOutput.Values())
  {
    var n := P.Bindings(WeightTensors(m.layers), m.tables);
    E.OrderedAlike(BindingsOf(a), n);
    ModelResolves(m.layers);
    VerifySound(h, a);
    var x := DecodeInput(a.publicInput).value;
    hide E.SameLookups, Compose, RunLayers, ModelOps, WeightTensors, InIdOrder, SortedTables, IdsAgree, Resolved,
         AuditEscapes, DecodeInput, Verify, BoundTrace;
    SameCompose(a.graph, BindingsOf(a), n, x);
    RunMeans(m.layers, n, x);
  }
}
