/**
 * The compiled predictor as a whole: it computes the direct semantics, it never gets
 * stuck, and an accepted proof of it carries the direct semantics' result.
 */
module CircuitMeaning {
  import opened Wrappers
  import opened Arith
  import opened Bytes
  import opened Matrix
  import opened Kernels
  import opened Tensors
  import opened Blocks
  import opened Soundness
  import opened IntegerForward
  import opened Circuit
  import opened CircuitProof
  import P = BlockProver
  import V = BlockVerifier
  import A = BlockAudit

  // ------------------------------------------------------------ weight registration

  /** The k-th registered weight carries id 1000 + k. */
  predicate NumberedFrom(ws: seq<TensorT>, base: nat) {
    forall j :: 0 <= j < |ws| ==> ws[j].tensorId == base + j
  }

  predicate Numbered(b: BState) {
    b.nextWeight == 1000 + |b.weights| && NumberedFrom(b.weights, 1000)
  }

  lemma {:induction false} FindNumbered(ws: seq<TensorT>, base: nat, k: nat)
    requires k < |ws| && NumberedFrom(ws, base)
    ensures FindTensor(ws, base + k) == Some(ws[k])
  {
    if k != 0 {
      FindNumbered(ws[1..], base + 1, k - 1);
    }
  }

  /** A registered weight is found in any later list. */
  lemma WeightFound(b: BState, rows: nat, cols: nat, w: seq<int>, e: Env)
    requires Numbered(b) && WeightOk(rows, cols, w)
    requires NumberedFrom(e.m.weights, 1000) && WeightB(b, rows, cols, w).weights <= e.m.weights
    ensures Numbered(WeightB(b, rows, cols, w)) && HasWeight(e, b.nextWeight, rows, cols, w)
  {
    var k := |b.weights|;
    FindNumbered(e.m.weights, 1000, k);
    assert WeightB(b, rows, cols, w).weights[k] == e.m.weights[k];
  }

  lemma BlockWeightsFound(b: BState, n: Dims, qb: QuantBlock, e: Env)
    requires Numbered(b) && BlockOk(n, qb)
    requires NumberedFrom(e.m.weights, 1000) && BlockWeightsB(b, n, qb).weights <= e.m.weights
    ensures Numbered(BlockWeightsB(b, n, qb)) && HasBlock(e, WeightIds(b), n, qb)
  {
    hide HasWeight, WeightOk;
    var b1 := WeightB(b, 6 * n.d, n.d, qb.adaln);
    var b2 := WeightB(b1, 3 * n.Inner(), n.d, qb.qkv);
    var b3 := WeightB(b2, n.d, n.Inner(), qb.out);
    var b4 := WeightB(b3, n.mlp, n.d, qb.fc1);
    var b5 := WeightB(b4, n.d, n.mlp, qb.fc2);
    assert b1.weights <= b5.weights && b2.weights <= b5.weights && b3.weights <= b5.weights && b4.weights <= b5.weights;
    WeightFound(b, 6 * n.d, n.d, qb.adaln, e);
    WeightFound(b1, 3 * n.Inner(), n.d, qb.qkv, e);
    WeightFound(b2, n.d, n.Inner(), qb.out, e);
    WeightFound(b3, n.mlp, n.d, qb.fc1, e);
    WeightFound(b4, n.d, n.mlp, qb.fc2, e);
  }

  lemma RegisterNumbered(b: BState, n: Dims, qb: QuantBlock)
    requires Numbered(b) && BlockOk(n, qb)
    ensures Numbered(BlockWeightsB(b, n, qb)) && b.weights <= BlockWeightsB(b, n, qb).weights
  {
  }

  predicate AllOk(n: Dims, qbs: seq<QuantBlock>, dp: DerivedParams) {
    |qbs| == |dp.blocks| && forall j :: 0 <= j < |qbs| ==> BlockOk(n, qbs[j])
  }

  lemma BlocksStatics(g: Stage, c: nat, n: Dims, qbs: seq<QuantBlock>, dp: DerivedParams, i: nat)
    requires AllOk(n, qbs, dp) && i < |qbs|
    ensures var h := BlocksB(g, c, n, qbs, dp, i).b;
            SameStatics(BlockWeightsB(h, n, qbs[i]), BlocksB(g, c, n, qbs, dp, i + 1).b)
  {
    hide BlockWeightsB, ConditionalBlockB, BlockOk;
  }

  /** Weights are numbered at every stage, and only ever added. */
  lemma BlocksNumbered(g: Stage, c: nat, n: Dims, qbs: seq<QuantBlock>, dp: DerivedParams, i: nat, k: nat)
    requires AllOk(n, qbs, dp) && i <= k <= |qbs| && Numbered(g.b)
    ensures var a, z := BlocksB(g, c, n, qbs, dp, i).b, BlocksB(g, c, n, qbs, dp, k).b;
            Numbered(a) && Numbered(z) && a.weights <= z.weights && z.inputs == g.b.inputs
  {
    hide BlockB, BlockOk;
    for j := 0 to i
      invariant Numbered(BlocksB(g, c, n, qbs, dp, j).b) && BlocksB(g, c, n, qbs, dp, j).b.inputs == g.b.inputs
    {
      RegisterNumbered(BlocksB(g, c, n, qbs, dp, j).b, n, qbs[j]);
      BlocksStatics(g, c, n, qbs, dp, j);
    }
    for j := i to k
      invariant Numbered(BlocksB(g, c, n, qbs, dp, j).b) && BlocksB(g, c, n, qbs, dp, j).b.inputs == g.b.inputs
      invariant BlocksB(g, c, n, qbs, dp, i).b.weights <= BlocksB(g, c, n, qbs, dp, j).b.weights
    {
      RegisterNumbered(BlocksB(g, c, n, qbs, dp, j).b, n, qbs[j]);
      BlocksStatics(g, c, n, qbs, dp, j);
    }
  }

  // ----------------------------------------------------------------- the depth loop

  /** Registering weights computes nothing. */
  lemma RegisterKeeps(b: BState, n: Dims, qb: QuantBlock, e: Env)
    requires BlockOk(n, qb) && Runs(b, e)
    ensures var b' := BlockWeightsB(b, n, qb);
            Runs(b', e) && Keeps(b, b', e)
  {
    var b' := BlockWeightsB(b, n, qb);
    assert b'.ops == b.ops && b'.nextBuf == b.nextBuf;
  }

  /** The stage holds the residual stream and still holds the conditioning input. */
  ghost predicate Holds(g: Stage, e: Env, x: Option<Mat>, c: nat, cm: Mat) {
    Runs(g.b, e) && x.Some? && Val(g.b, e, g.x) == Some(Flatten(x.value)) && Val(g.b, e, c) == Some(Flatten(cm))
  }

  lemma StageSim(g: Stage, e: Env, c: nat, xm: Mat, cm: Mat, n: Dims, qb: QuantBlock, dp: DerivedParams,
                 bs: BlockShifts, t: Tables)
    requires Holds(g, e, Some(xm), c, cm) && StepOk(n, dp, t) && HasTables(e, t) && BlockOk(n, qb) && qb.Shaped(n)
    requires HasBlock(e, WeightIds(g.b), n, qb)
    requires IsMat(xm, n.s, n.d) && IsMat(cm, n.s, n.d) && EvalMat(t.silu, cm).Some?
             && IsMat(EvalMat(t.silu, cm).value, n.s, n.d)
    requires IntegerBlock(xm, EvalMat(t.silu, cm).value, qb, n, dp, bs, t).Some?
    ensures Holds(BlockB(g, c, n, qb, dp, bs), e, IntegerBlock(xm, EvalMat(t.silu, cm).value, qb, n, dp, bs, t), c, cm)
  {
    hide Val, Runs, Out, BlockWeightsB, ConditionalBlockB, IntegerBlock, HasBlock, HasTables, BlockOk, EvalMat;
    RegisterKeeps(g.b, n, qb, e);
    var b1 := BlockWeightsB(g.b, n, qb);
    BlockSim(b1, e, g.x, c, xm, cm, n, WeightIds(g.b), qb, dp, bs, t);
  }

  lemma BlocksSim(g: Stage, e: Env, c: nat, xm: Mat, cm: Mat, n: Dims, qbs: seq<QuantBlock>, dp: DerivedParams,
                  t: Tables)
    requires Holds(g, e, Some(xm), c, cm) && StepOk(n, dp, t) && HasTables(e, t) && AllOk(n, qbs, dp)
    requires forall j :: 0 <= j < |qbs| ==> qbs[j].Shaped(n)
    requires Numbered(g.b) && e.m.weights == BlocksB(g, c, n, qbs, dp, |qbs|).b.weights
    requires IsMat(xm, n.s, n.d) && IsMat(cm, n.s, n.d) && EvalMat(t.silu, cm).Some?
             && IsMat(EvalMat(t.silu, cm).value, n.s, n.d)
    requires Stream(xm, EvalMat(t.silu, cm).value, qbs, n, dp, t, |qbs|).Some?
    ensures Holds(BlocksB(g, c, n, qbs, dp, |qbs|), e, Stream(xm, EvalMat(t.silu, cm).value, qbs, n, dp, t, |qbs|), c,
                  cm)
  {
    hide Holds, HasTables, HasBlock, BlockOk, BlockB, IntegerBlock, EvalMat, QuantBlock.Shaped, InOrder, Biasless;
    var siluC := EvalMat(t.silu, cm).value;
    for i := 0 to |qbs|
      invariant Holds(BlocksB(g, c, n, qbs, dp, i), e, Stream(xm, siluC, qbs, n, dp, t, i), c, cm)
    {
      var h := BlocksB(g, c, n, qbs, dp, i);
      StreamDefined(xm, siluC, qbs, n, dp, t, i, |qbs|);
      StreamDefined(xm, siluC, qbs, n, dp, t, i + 1, |qbs|);
      BlocksNumbered(g, c, n, qbs, dp, i, |qbs|);
      BlocksNumbered(g, c, n, qbs, dp, i + 1, |qbs|);
      BlocksStatics(g, c, n, qbs, dp, i);
      BlockWeightsFound(h.b, n, qbs[i], e);
      StageSim(h, e, c, Stream(xm, siluC, qbs, n, dp, t, i).value, cm, n, qbs[i], dp, dp.blocks[i], t);
    }
  }

  // ------------------------------------------------------------------ whole circuits

  /** A step whose shapes, weights and tables are what the compiler accepts. */
  ghost predicate Compilable(n: Dims, xq: seq<int>, cq: seq<int>, qbs: seq<QuantBlock>, dp: DerivedParams, t: Tables,
                             tables: seq<ActivationTable>)
  {
    && StepOk(n, dp, t) && |xq| == n.s * n.d && |cq| == n.s * n.d
    && AllOk(n, qbs, dp) && (forall j :: 0 <= j < |qbs| ==> qbs[j].Shaped(n))
    && HasTables(Env(P.Bindings([], tables), map[]), t)
  }

  lemma SeedTwo(x: seq<int>, y: seq<int>)
    ensures P.Seed([(0, x), (1, y)]) == map[0 := x, 1 := y]
  {
    assert [(0, x), (1, y)][..1] == [(0, x)] && [(0, x)][..0] == [];
    assert P.Seed([(0, x)]) == map[0 := x];
  }

  lemma StartSim(n: Dims, xq: seq<int>, cq: seq<int>, m: P.Bindings)
    requires |xq| == n.s * n.d && |cq| == n.s * n.d
    ensures var g := StartB(xq, cq);
            && Out(g.b) == 1 && Numbered(g.b)
            && Holds(g, Env(m, P.Seed(g.b.inputs)), Some(Rows(xq, n.s, n.d)), 1, Rows(cq, n.s, n.d))
  {
    FlattenRows(xq, n.s, n.d);
    FlattenRows(cq, n.s, n.d);
    SeedTwo(xq, cq);
    hide P.Seed, Rows, Flatten;
    var g := StartB(xq, cq);
    assert g.b.inputs == [(0, xq), (1, cq)];
    assert Final(g.b, Env(m, P.Seed(g.b.inputs))) == Some(map[0 := xq, 1 := cq]);
  }

  /**
   * Compilation preserves meaning: whenever the direct semantics is defined, proving
   * the built block succeeds and leaves exactly its result in the output buffer.
   */
  lemma CircuitMeansForward(n: Dims, xq: seq<int>, cq: seq<int>, qbs: seq<QuantBlock>, dp: DerivedParams, t: Tables,
                            tables: seq<ActivationTable>)
    requires Compilable(n, xq, cq, qbs, dp, t, tables) && Forward(n, qbs, xq, cq, dp, t).Some?
    ensures var c := BuildPredictor(n, xq, cq, qbs, dp);
            && P.ProveBlock(c.block, P.Bindings(c.weights, tables), c.inputs).Ok?
            && A.FinalBuffer(c.block, P.Bindings(c.weights, tables), c.inputs) == Forward(n, qbs, xq, cq, dp, t)
  {
    hide Holds, BlocksB, LnPerPosB, HasWeight, Stream, EvalMat, QuantBlock.Shaped, BlockOk, LnRows;
    var g := StartB(xq, cq);
    var last := BlocksB(g, 1, n, qbs, dp, |qbs|);
    var e := Env(P.Bindings(last.b.weights, tables), P.Seed(g.b.inputs));
    StartSim(n, xq, cq, e.m);
    BlocksNumbered(g, 1, n, qbs, dp, 0, |qbs|);
    var xm, cm := Rows(xq, n.s, n.d), Rows(cq, n.s, n.d);
    EvalMatShape(t.silu, cm, n.s, n.d);
    var siluC := EvalMat(t.silu, cm).value;
    BlocksSim(g, e, 1, xm, cm, n, qbs, dp, t);
    FinalNorm(last, e, Stream(xm, siluC, qbs, n, dp, t, |qbs|).value, 1, cm, n, dp, t);
  }

  lemma FinalNorm(g: Stage, e: Env, xm: Mat, c: nat, cm: Mat, n: Dims, dp: DerivedParams, t: Tables)
    requires Holds(g, e, Some(xm), c, cm) && StepOk(n, dp, t) && HasTables(e, t) && IsMat(xm, n.s, n.d)
    requires LnRows(xm, t.invSqrt, dp.lnShift).Some?
    ensures var b := LnPerPosB(g.b, g.x, n.s, n.d, dp.lnShift);
            && P.ProveOps(b.ops, e.m, e.seed).Ok?
            && P.Get(P.ProveOps(b.ops, e.m, e.seed).value.1, Out(b))
                 == Some(Flatten(LnRows(xm, t.invSqrt, dp.lnShift).value))
  {
    Fits(n);
    LnPerPosSim(g.b, e, g.x, xm, n.s, n.d, dp.lnShift, t);
    hide P.ProveOps, LnPerPosB, LnRows;
  }

  /**
   * Built circuits never get stuck: on int8 inputs, with tables over the domains the
   * step can reach, the prover hits no missing buffer, shape or table error.
   */
  lemma CircuitNeverStuck(n: Dims, xq: seq<int>, cq: seq<int>, qbs: seq<QuantBlock>, dp: DerivedParams, t: Tables,
                          tables: seq<ActivationTable>)
    requires Compilable(n, xq, cq, qbs, dp, t, tables) && CoversStep(t) && AllIn(xq, CLO, CHI) && AllIn(cq, CLO, CHI)
    ensures Forward(n, qbs, xq, cq, dp, t).Some?
    ensures var c := BuildPredictor(n, xq, cq, qbs, dp);
            P.ProveBlock(c.block, P.Bindings(c.weights, tables), c.inputs).Ok?
  {
    ForwardTotal(n, qbs, xq, cq, dp, t);
    CircuitMeansForward(n, xq, cq, qbs, dp, t, tables);
  }

  // ------------------------------------------------------------------ ids and order

  /** Five weights a block; the k-th carries id 1000 + k and scale id 10 + k. */
  predicate WeightsInOrder(ws: seq<TensorT>) {
    forall k :: 0 <= k < |ws| ==> ws[k].tensorId == 1000 + k && ws[k].scaleId == 10 + k
  }

  lemma WeightInOrder(b: BState, rows: nat, cols: nat, w: seq<int>)
    requires WeightOk(rows, cols, w) && b.nextWeight == 1000 + |b.weights| && WeightsInOrder(b.weights)
    ensures var b' := WeightB(b, rows, cols, w);
            b'.nextWeight == 1000 + |b'.weights| && WeightsInOrder(b'.weights) && |b'.weights| == |b.weights| + 1
  {
  }

  lemma RegisteredInOrder(b: BState, n: Dims, qb: QuantBlock)
    requires BlockOk(n, qb) && b.nextWeight == 1000 + |b.weights| && WeightsInOrder(b.weights) && InOrder(b)
    ensures var b' := BlockWeightsB(b, n, qb);
            && b'.nextWeight == 1000 + |b'.weights| && WeightsInOrder(b'.weights) && |b'.weights| == |b.weights| + 5
            && InOrder(b') && b'.inputs == b.inputs
  {
    hide WeightOk, WeightsInOrder;
    var b1 := WeightB(b, 6 * n.d, n.d, qb.adaln);
    var b2 := WeightB(b1, 3 * n.Inner(), n.d, qb.qkv);
    var b3 := WeightB(b2, n.d, n.Inner(), qb.out);
    var b4 := WeightB(b3, n.mlp, n.d, qb.fc1);
    WeightInOrder(b, 6 * n.d, n.d, qb.adaln);
    WeightInOrder(b1, 3 * n.Inner(), n.d, qb.qkv);
    WeightInOrder(b2, n.d, n.Inner(), qb.out);
    WeightInOrder(b3, n.mlp, n.d, qb.fc1);
    WeightInOrder(b4, n.d, n.mlp, qb.fc2);
  }

  lemma BlocksInOrder(g: Stage, c: nat, n: Dims, qbs: seq<QuantBlock>, dp: DerivedParams, i: nat)
    requires AllOk(n, qbs, dp) && i <= |qbs| && InOrder(g.b) && g.b.weights == [] && g.b.nextWeight == 1000
    ensures var b := BlocksB(g, c, n, qbs, dp, i).b;
            InOrder(b) && b.inputs == g.b.inputs && WeightsInOrder(b.weights) && |b.weights| == 5 * i
  {
    hide BlockB, BlockOk, InOrder, WeightsInOrder, BlockWeightsB, Biasless;
    assert WeightsInOrder([]) by { NoWeights(); }
    for j := 0 to i
      invariant var b := BlocksB(g, c, n, qbs, dp, j).b;
                && InOrder(b) && b.inputs == g.b.inputs && b.nextWeight == 1000 + |b.weights|
                && WeightsInOrder(b.weights) && |b.weights| == 5 * j
    {
      RegisteredInOrder(BlocksB(g, c, n, qbs, dp, j).b, n, qbs[j]);
      BlocksStatics(g, c, n, qbs, dp, j);
    }
  }

  lemma NoWeights()
    ensures WeightsInOrder([])
  {
  }

  lemma StartInOrder(xq: seq<int>, cq: seq<int>)
    ensures var g := StartB(xq, cq);
            && InOrder(g.b) && Out(g.b) == 1 && g.b.inputs == [(0, xq), (1, cq)]
            && g.b.weights == [] && g.b.nextWeight == 1000
  {
  }

  lemma NumberedOps(b: BState)
    requires InOrder(b) && |b.inputs| == 2
    ensures forall i :: 0 <= i < |b.ops| ==>
              b.ops[i].opId == i + 1 && b.ops[i].outBuf == i + 2 && b.ops[i].out == [] && Canonical(b.ops[i])
    ensures Out(b) == |b.ops| + 1
  {
    hide Canonical;
  }

  /**
   * The static part of a built circuit: op i carries id i + 1 and writes buffer i + 2,
   * rounds to nearest even into int8, reads the table its kernel is for and claims
   * nothing; the inputs are buffers 0 and 1, the output is the last op's, and the weights
   * are numbered in registration order.
   */
  lemma BuiltInOrder(n: Dims, xq: seq<int>, cq: seq<int>, qbs: seq<QuantBlock>, dp: DerivedParams)
    requires AllOk(n, qbs, dp)
    ensures var c := BuildPredictor(n, xq, cq, qbs, dp);
            && (forall i :: 0 <= i < |c.block.ops| ==>
                  var op := c.block.ops[i];
                  op.opId == i + 1 && op.outBuf == i + 2 && op.out == [] && Canonical(op))
            && c.block.inputBufs == [0, 1] && c.inputs == [(0, xq), (1, cq)] && c.block.outputBuf == |c.block.ops| + 1
            && |c.weights| == 5 * |qbs| && WeightsInOrder(c.weights)
  {
    var g := StartB(xq, cq);
    StartInOrder(xq, cq);
    hide BlocksB, LnPerPosB, Canonical, WeightsInOrder, BlockOk, Biasless, InOrder, StartB;
    BlocksInOrder(g, 1, n, qbs, dp, |qbs|);
    var b := PredictorB(n, xq, cq, qbs, dp);
    NumberedOps(b);
    assert InputIds(b.inputs) == [0, 1];
  }

  // -------------------------------------------------------- the audit of a circuit

  /** Layers narrow enough for the range guard to be exact on every int8 weight. */
  predicate GuardWidths(n: Dims) {
    n.d <= 0x100_0000 && n.Inner() <= 0x100_0000 && n.mlp <= 0x100_0000
  }

  /** Every registered weight is an int8 matrix the guard covers. */
  predicate Covered(ws: seq<TensorT>) {
    forall w :: w in ws ==> |w.shape| == 2 && Int8(w.Values()) && GuardCovers(w.Values(), w.shape[1])
  }

  lemma RegisterCovered(b: BState, n: Dims, qb: QuantBlock)
    requires BlockOk(n, qb) && GuardWidths(n) && Covered(b.weights)
    ensures Covered(BlockWeightsB(b, n, qb).weights) && BlockWeightsB(b, n, qb).ops == b.ops
  {
  }

  /** Built circuits have no biases, and only covered weights. */
  lemma BlocksCovered(g: Stage, c: nat, n: Dims, qbs: seq<QuantBlock>, dp: DerivedParams, i: nat)
    requires AllOk(n, qbs, dp) && i <= |qbs| && GuardWidths(n) && Covered(g.b.weights) && Biasless(g.b.ops)
    ensures Covered(BlocksB(g, c, n, qbs, dp, i).b.weights) && Biasless(BlocksB(g, c, n, qbs, dp, i).b.ops)
  {
    hide BlockB, BlockOk, Covered, Biasless;
    for j := 0 to i
      invariant Covered(BlocksB(g, c, n, qbs, dp, j).b.weights) && Biasless(BlocksB(g, c, n, qbs, dp, j).b.ops)
    {
      RegisterCovered(BlocksB(g, c, n, qbs, dp, j).b, n, qbs[j]);
      BlocksStatics(g, c, n, qbs, dp, j);
    }
  }

  lemma BuiltCovered(n: Dims, xq: seq<int>, cq: seq<int>, qbs: seq<QuantBlock>, dp: DerivedParams)
    requires AllOk(n, qbs, dp) && GuardWidths(n)
    ensures var c := BuildPredictor(n, xq, cq, qbs, dp); Covered(c.weights) && Biasless(c.block.ops)
  {
    BlocksCovered(StartB(xq, cq), 1, n, qbs, dp, |qbs|);
    hide BlocksB, LnPerPosB, Covered;
  }

  /** Ops over covered weights and without biases are bound as soundness wants them. */
  lemma CoveredBound(ops: seq<BlockOp>, m: P.Bindings)
    requires Covered(m.weights) && Biasless(ops)
    ensures A.AllWellBound(ops, m)
  {
    hide GuardCovers, Int8;
    forall i | 0 <= i < |ops| ensures A.WellBound(ops[i], m) {
    }
  }

  lemma CircuitWellBound(n: Dims, xq: seq<int>, cq: seq<int>, qbs: seq<QuantBlock>, dp: DerivedParams,
                         tables: seq<ActivationTable>)
    requires AllOk(n, qbs, dp) && GuardWidths(n)
    ensures var c := BuildPredictor(n, xq, cq, qbs, dp);
            A.AllWellBound(c.block.ops, P.Bindings(c.weights, tables))
  {
    hide BuildPredictor, Covered, Biasless, A.AllWellBound, BlockOk;
    var c := BuildPredictor(n, xq, cq, qbs, dp);
    BuiltCovered(n, xq, cq, qbs, dp);
    CoveredBound(c.block.ops, P.Bindings(c.weights, tables));
  }

  /**
   * An accepted proof of a built circuit returns the direct semantics' result, unless
   * some challenge escaped. Only the claimed outputs may differ from the built block.
   */
  lemma VerifiedMeansForward(h: HashFn, n: Dims, xq: seq<int>, cq: seq<int>, qbs: seq<QuantBlock>, dp: DerivedParams,
                             t: Tables, tables: seq<ActivationTable>, claimed: Block)
    requires Compilable(n, xq, cq, qbs, dp, t, tables) && GuardWidths(n) && Forward(n, qbs, xq, cq, dp, t).Some?
    requires var c := BuildPredictor(n, xq, cq, qbs, dp);
             && claimed.outputBuf == c.block.outputBuf && Skeleton(claimed.ops) == Skeleton(c.block.ops)
             && V.VerifyBlock(h, claimed, P.Bindings(c.weights, tables), c.inputs).Ok?
    ensures var c := BuildPredictor(n, xq, cq, qbs, dp);
            var m := P.Bindings(c.weights, tables);
            || V.VerifyBlock(h, claimed, m, c.inputs) == Ok(Forward(n, qbs, xq, cq, dp, t).value)
            || A.SomeEscape(h, claimed.ops, m, P.Seed(c.inputs), V.BlockTranscript(h, claimed, c.inputs))
  {
    var c := BuildPredictor(n, xq, cq, qbs, dp);
    var m := P.Bindings(c.weights, tables);
    CircuitMeansForward(n, xq, cq, qbs, dp, t, tables);
    CircuitWellBound(n, xq, cq, qbs, dp, tables);
    A.SkeletonWellBound(c.block.ops, claimed.ops, m);
    hide BuildPredictor, Forward, V.VerifyBlock, V.BlockTranscript, A.AllWellBound, P.ProveBlock, A.SomeEscape;
    A.BlockSound(h, claimed, m, c.inputs);
    SameFinal(c.block, claimed, m, c.inputs);
  }

  /** The final buffer depends on the skeleton alone. */
  lemma SameFinal(a: Block, b: Block, m: P.Bindings, inputs: Inputs)
    requires Skeleton(a.ops) == Skeleton(b.ops) && a.outputBuf == b.outputBuf
    ensures A.FinalBuffer(b.(ops := Skeleton(b.ops)), m, inputs) == A.FinalBuffer(a, m, inputs)
  {
    P.ClaimsIgnored(a.ops, m, P.Seed(inputs));
  }
}
