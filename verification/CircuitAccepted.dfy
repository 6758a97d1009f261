/**
 * Honest compiled circuits: within the caps of the range analysis the prover never leaves
 * i64, and the verifier accepts its proof under every challenge.
 */
module CircuitAccepted {
  import opened Wrappers
  import opened Arith
  import opened Bytes
  import opened Kernels
  import opened Matrix
  import opened Tensors
  import opened Blocks
  import opened IntegerForward
  import opened Circuit
  import opened CircuitMeaning
  import opened CircuitRanges
  import opened Overflow
  import opened Ranges
  import CP = CircuitProof
  import P = BlockProver
  import V = BlockVerifier
  import A = BlockAudit

  // ------------------------------------------------------------------ the depth loop

  /** The stage passes, and its stream and the conditioning input are int8. */
  ghost predicate Ready(g: Stage, e: Scene, c: nat) {
    Passes(g.b, e) && Mags(g.b, e, g.x, INT8) && Mags(g.b, e, c, INT8)
  }

  lemma StageReady(g: Stage, e: Scene, c: nat, n: Dims, qb: QuantBlock, dp: DerivedParams, bs: BlockShifts, t: Tables)
    requires Ready(g, e, c) && StepCaps(e, n, dp, t) && BlockOk(n, qb) && ShiftsOk(bs)
    requires CP.HasBlock(CP.Env(e.m, map[]), WeightIds(g.b), n, qb)
    ensures Ready(BlockB(g, c, n, qb, dp, bs), e, c)
  {
    var b1 := BlockWeightsB(g.b, n, qb);
    assert b1.ops == g.b.ops && b1.nextBuf == g.b.nextBuf;
    assert BlockReady(e, WeightIds(g.b), n, qb);
    assert Passes(b1, e) && Mags(b1, e, g.x, INT8) && Mags(b1, e, c, INT8);
    hide Known, Mags, Passes, Out, ConditionalBlockB, BlockWeightsB, StepCaps, BlockReady, BlockOk, ShiftsOk;
    BlockMakes(b1, e, g.x, c, n, WeightIds(g.b), qb, dp, bs, t);
  }

  lemma StepShifts(e: Scene, n: Dims, dp: DerivedParams, t: Tables, j: nat)
    requires StepCaps(e, n, dp, t) && j < |dp.blocks|
    ensures ShiftsOk(dp.blocks[j])
  {
    hide LinearsOk, LayerNormCap, SoftmaxCap, FitsU32, CP.HasTables, ShiftsOk;
  }

  lemma BlocksReady(g: Stage, e: Scene, c: nat, n: Dims, qbs: seq<QuantBlock>, dp: DerivedParams, t: Tables)
    requires Ready(g, e, c) && StepCaps(e, n, dp, t) && AllOk(n, qbs, dp)
    requires Numbered(g.b) && e.m.weights == BlocksB(g, c, n, qbs, dp, |qbs|).b.weights
    ensures Ready(BlocksB(g, c, n, qbs, dp, |qbs|), e, c)
  {
    hide Ready, StepCaps, BlockB, BlockOk, ShiftsOk, CP.HasBlock, Biasless, BlockWeightsB;
    for i := 0 to |qbs|
      invariant Ready(BlocksB(g, c, n, qbs, dp, i), e, c)
    {
      var s := BlocksB(g, c, n, qbs, dp, i);
      BlocksNumbered(g, c, n, qbs, dp, i, |qbs|);
      BlocksNumbered(g, c, n, qbs, dp, i + 1, |qbs|);
      BlocksStatics(g, c, n, qbs, dp, i);
      BlockWeightsFound(s.b, n, qbs[i], CP.Env(e.m, map[]));
      StepShifts(e, n, dp, t, i);
      StageReady(s, e, c, n, qbs[i], dp, dp.blocks[i], t);
    }
  }

  // ----------------------------------------------------------------- the whole circuit

  /** The two int8 inputs. */
  const SEEDS: Bounds := map[0 := Bound(INT8, None), 1 := Bound(INT8, None)]

  lemma StartReady(xq: seq<int>, cq: seq<int>, m: P.Bindings)
    ensures var g := StartB(xq, cq); Out(g.b) == 1 && Numbered(g.b) && Ready(g, Scene(m, SEEDS), 1)
  {
    var g := StartB(xq, cq);
    assert Known(g.b, Scene(m, SEEDS)) == Some(SEEDS);
  }

  lemma SeedsDescribe(xq: seq<int>, cq: seq<int>)
    requires AllIn(xq, CLO, CHI) && AllIn(cq, CLO, CHI)
    ensures Describes(SEEDS, P.Seed([(0, xq), (1, cq)]))
  {
    SeedTwo(xq, cq);
  }

  /** After the depth loop the stream is still int8. */
  lemma LastReady(g: Stage, n: Dims, qbs: seq<QuantBlock>, dp: DerivedParams, t: Tables, e: Scene)
    requires AllOk(n, qbs, dp) && StepCaps(e, n, dp, t) && Ready(g, e, 1) && Numbered(g.b)
    requires e.m.weights == BlocksB(g, 1, n, qbs, dp, |qbs|).b.weights
    ensures Ready(BlocksB(g, 1, n, qbs, dp, |qbs|), e, 1) && BlocksB(g, 1, n, qbs, dp, |qbs|).b.inputs == g.b.inputs
  {
    hide BlocksB, Ready, StepCaps, BlockOk, Numbered;
    BlocksNumbered(g, 1, n, qbs, dp, 0, |qbs|);
    BlocksReady(g, e, 1, n, qbs, dp, t);
  }

  lemma FinalNormMakes(g: Stage, e: Scene, n: Dims, dp: DerivedParams, t: Tables)
    requires Ready(g, e, 1) && StepCaps(e, n, dp, t)
    ensures Makes(g.b, LnPerPosB(g.b, g.x, n.s, n.d, dp.lnShift), e, INT8)
  {
    LayerNormCapMono(n.d, INT8, MODULATED, t.invSqrt);
    hide LnPerPosB, LinearsOk, LayerNormCap, SoftmaxCap, Passes, Mags, Makes;
    LnPerPosMakes(g.b, e, g.x, INT8, n.s, n.d, dp.lnShift, t.invSqrt);
  }

  /** The range analysis passes every compiled circuit within the caps. */
  lemma CircuitInfers(n: Dims, xq: seq<int>, cq: seq<int>, qbs: seq<QuantBlock>, dp: DerivedParams, t: Tables,
                      tables: seq<ActivationTable>)
    requires AllOk(n, qbs, dp) && FitsU32(n) && InCaps(n, dp, t)
             && CP.HasTables(CP.Env(P.Bindings([], tables), map[]), t)
    ensures var c := BuildPredictor(n, xq, cq, qbs, dp);
            InferAll(c.block.ops, P.Bindings(c.weights, tables), SEEDS).Some? && c.inputs == [(0, xq), (1, cq)]
  {
    var g := StartB(xq, cq);
    assert g.b.inputs == [(0, xq), (1, cq)];
    hide InCaps, FitsU32, BlocksB, LnPerPosB, StartB, Ready, Mags, Kept, BlockOk, Numbered;
    var last := BlocksB(g, 1, n, qbs, dp, |qbs|);
    var e := Scene(P.Bindings(last.b.weights, tables), SEEDS);
    StartReady(xq, cq, e.m);
    assert StepCaps(e, n, dp, t);
    LastReady(g, n, qbs, dp, t, e);
    FinalNormMakes(last, e, n, dp, t);
  }

  lemma {:induction false} InferredInt8(ops: seq<BlockOp>, m: P.Bindings, rs: Bounds)
    requires InferAll(ops, m, rs).Some?
    ensures A.AllInt8Bound(ops, m)
  {
    if |ops| > 0 {
      var n := |ops| - 1;
      InferredInt8(ops[..n], m, rs);
      OpInt8(ops[n], m, InferAll(ops[..n], m, rs).value);
      hide Infer, A.Int8Bound;
      forall i | 0 <= i < |ops| ensures A.Int8Bound(ops[i], m) {
        if i < n { assert ops[..n][i] == ops[i]; }
      }
    }
  }

  lemma OpInt8(op: BlockOp, m: P.Bindings, rs: Bounds)
    requires Infer(op, m, rs).Some?
    ensures A.Int8Bound(op, m)
  {
    hide LinearCap, MaxMag;
  }

  /**
   * On int8 inputs, within the caps, no kernel of the prover's run of a compiled circuit
   * leaves i64, and everything the run claims is inside the verifier's guards.
   */
  lemma CircuitInI64(n: Dims, xq: seq<int>, cq: seq<int>, qbs: seq<QuantBlock>, dp: DerivedParams, t: Tables,
                     tables: seq<ActivationTable>)
    requires Compilable(n, xq, cq, qbs, dp, t, tables) && InCaps(n, dp, t) && Forward(n, qbs, xq, cq, dp, t).Some?
    requires AllIn(xq, CLO, CHI) && AllIn(cq, CLO, CHI)
    ensures var c := BuildPredictor(n, xq, cq, qbs, dp);
            var m := P.Bindings(c.weights, tables);
            && RunInI64(c.block.ops, m, P.Seed(c.inputs))
            && P.ProveBlock(c.block, m, c.inputs).Ok?
            && A.AllInsideGuards(P.ProveBlock(c.block, m, c.inputs).value.ops, m, P.Seed(c.inputs))
            && A.AllInt8Bound(c.block.ops, m)
  {
    var c := BuildPredictor(n, xq, cq, qbs, dp);
    var m := P.Bindings(c.weights, tables);
    CircuitMeansForward(n, xq, cq, qbs, dp, t, tables);
    CircuitInfers(n, xq, cq, qbs, dp, t, tables);
    SeedsDescribe(xq, cq);
    hide BuildPredictor, Forward, InCaps, InferAll, RunInI64, A.AllInsideGuards, P.ProveOps, P.Seed, Describes,
         A.AllInt8Bound;
    InferredInt8(c.block.ops, m, SEEDS);
    var (filled, final) := P.ProveOps(c.block.ops, m, P.Seed(c.inputs)).value;
    RunSound(c.block.ops, m, SEEDS, P.Seed(c.inputs), filled, final);
  }

  /**
   * Such an honest proof is accepted, whatever challenges the hash yields, and returns
   * the direct semantics' result.
   */
  lemma CircuitAccepted(h: HashFn, n: Dims, xq: seq<int>, cq: seq<int>, qbs: seq<QuantBlock>, dp: DerivedParams,
                        t: Tables, tables: seq<ActivationTable>)
    requires Compilable(n, xq, cq, qbs, dp, t, tables) && InCaps(n, dp, t) && Forward(n, qbs, xq, cq, dp, t).Some?
    requires AllIn(xq, CLO, CHI) && AllIn(cq, CLO, CHI)
    ensures var c := BuildPredictor(n, xq, cq, qbs, dp);
            var m := P.Bindings(c.weights, tables);
            && P.ProveBlock(c.block, m, c.inputs).Ok?
            && V.VerifyBlock(h, P.ProveBlock(c.block, m, c.inputs).value, m, c.inputs)
                 == Ok(Forward(n, qbs, xq, cq, dp, t).value)
  {
    var c := BuildPredictor(n, xq, cq, qbs, dp);
    var m := P.Bindings(c.weights, tables);
    CircuitMeansForward(n, xq, cq, qbs, dp, t, tables);
    CircuitInI64(n, xq, cq, qbs, dp, t, tables);
    hide BuildPredictor, Forward, InCaps, A.AllInsideGuards, P.ProveBlock, A.FinalBuffer, A.AllInt8Bound, V.VerifyBlock;
    A.BlockComplete(h, c.block, P.ProveBlock(c.block, m, c.inputs).value, m, c.inputs);
  }

  /** The same where the tables cover the step: it never gets stuck, never overflows, never fails the audit. */
  lemma CircuitNeverTraps(h: HashFn, n: Dims, xq: seq<int>, cq: seq<int>, qbs: seq<QuantBlock>, dp: DerivedParams,
                          t: Tables, tables: seq<ActivationTable>)
    requires Compilable(n, xq, cq, qbs, dp, t, tables) && InCaps(n, dp, t) && CoversStep(t)
    requires AllIn(xq, CLO, CHI) && AllIn(cq, CLO, CHI)
    ensures Forward(n, qbs, xq, cq, dp, t).Some?
    ensures var c := BuildPredictor(n, xq, cq, qbs, dp);
            var m := P.Bindings(c.weights, tables);
            && RunInI64(c.block.ops, m, P.Seed(c.inputs))
            && P.ProveBlock(c.block, m, c.inputs).Ok?
            && V.VerifyBlock(h, P.ProveBlock(c.block, m, c.inputs).value, m, c.inputs)
                 == Ok(Forward(n, qbs, xq, cq, dp, t).value)
  {
    ForwardTotal(n, qbs, xq, cq, dp, t);
    hide BuildPredictor, Forward, InCaps, Compilable;
    CircuitInI64(n, xq, cq, qbs, dp, t, tables);
    CircuitAccepted(h, n, xq, cq, qbs, dp, t, tables);
  }

  /** The result: as long as the input, and int8. */
  lemma ForwardInt8(n: Dims, qbs: seq<QuantBlock>, xq: seq<int>, cq: seq<int>, dp: DerivedParams, t: Tables)
    requires n.s >= 1 && n.d >= 1 && |xq| == n.s * n.d && |cq| == n.s * n.d
    requires |qbs| == |dp.blocks| && forall j :: 0 <= j < |qbs| ==> qbs[j].Shaped(n)
    requires Forward(n, qbs, xq, cq, dp, t).Some?
    ensures |Forward(n, qbs, xq, cq, dp, t).value| == n.s * n.d && AllIn(Forward(n, qbs, xq, cq, dp, t).value, CLO, CHI)
  {
    var siluC := EvalMat(t.silu, Rows(cq, n.s, n.d)).value;
    var x := Stream(Rows(xq, n.s, n.d), siluC, qbs, n, dp, t, |qbs|).value;
    var z := LnRows(x, t.invSqrt, dp.lnShift).value;
    hide Stream, LnRows, EvalMat, Rows;
    forall p | 0 <= p < |z| ensures |z[p]| == n.d && AllIn(z[p], CLO, CHI) {
      assert LnRow(x[p], t.invSqrt, dp.lnShift) == Some(z[p]);
    }
    FlattenSize(z, n.s, n.d);
    FlattenIn(z, CLO, CHI);
  }

  /** The last op writes the output buffer. */
  lemma OutputWritten(n: Dims, xq: seq<int>, cq: seq<int>, qbs: seq<QuantBlock>, dp: DerivedParams)
    requires AllOk(n, qbs, dp)
    ensures var b := BuildPredictor(n, xq, cq, qbs, dp).block;
            |b.ops| > 0 && b.ops[|b.ops| - 1].outBuf == b.outputBuf
  {
    hide BlocksB, LnLoop, BlockOk;
  }

  lemma WrittenStays(block: Block, filled: Block, m: P.Bindings, inputs: Inputs)
    requires |block.ops| > 0 && block.ops[|block.ops| - 1].outBuf == block.outputBuf
    requires P.ProveBlock(block, m, inputs) == Ok(filled)
    ensures P.LastWriter(filled.ops, filled.outputBuf).Some? && filled.outputBuf == block.outputBuf
  {
    var _, _ := P.LastFilled(block.ops, m, P.Seed(inputs));
  }
}
