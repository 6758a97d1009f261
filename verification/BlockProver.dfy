/**
 * crates/pwm-prover/src/lib.rs: `prove_block` runs a named-buffer block with the exact
 * integer kernels, filling in each op's output.
 */
module BlockProver {
  import opened Wrappers
  import opened Arith
  import opened Matrix
  import opened FixedPoint
  import opened Kernels
  import opened Tensors
  import opened Blocks

  datatype BlockError =
    | MissingBuffer(buf: nat)
    | MissingWeight(id: nat)
    | MissingTable(id: nat)
    | InvalidRounding(opId: nat, discriminant: nat)
    | TableDomain
    | Shape
    | Panic        // an index past the end of a bias shorter than the output

  /** The committed weights and tables an op may reference. */
  datatype Bindings = Bindings(weights: seq<TensorT>, tables: seq<ActivationTable>)

  type Bufs = map<nat, seq<int>>

  // ------------------------------------------------------------ the specification

  function Get(bufs: Bufs, id: nat): Option<seq<int>> {
    if id in bufs then Some(bufs[id]) else None
  }

  function Seed(inputs: Inputs): Bufs {
    if |inputs| == 0 then map[]
    else Seed(inputs[..|inputs| - 1])[inputs[|inputs| - 1].0 := inputs[|inputs| - 1].1]
  }

  function BiasOf(m: Bindings, biasId: Option<nat>, rows: nat): Result<seq<int>, BlockError> {
    match biasId
    case None => Ok(Zeros(rows))
    case Some(id) =>
      var t :- FindTensor(m.weights, id).OkOr(MissingWeight(id));
      Ok(t.Values())
  }

  /** The concatenation of buffers, or the first missing id. */
  function ConcatBufs(bufs: Bufs, ids: seq<nat>): Result<seq<int>, nat> {
    if |ids| == 0 then Ok([])
    else
      var init :- ConcatBufs(bufs, ids[..|ids| - 1]);
      var last :- Get(bufs, ids[|ids| - 1]).OkOr(ids[|ids| - 1]);
      Ok(init + last)
  }

  /** The output of one op on the current buffers. */
  function ProveOp(op: BlockOp, m: Bindings, bufs: Bufs): Result<seq<int>, BlockError> {
    match op
    case Linear(_, weightId, biasId, inBuf, _, _) =>
      var x :- Get(bufs, inBuf).OkOr(MissingBuffer(inBuf));
      var w :- FindTensor(m.weights, weightId).OkOr(MissingWeight(weightId));
      if |w.shape| != 2 then Err(Shape)
      else
        MatrixSize(w);
        var rows, cols := w.shape[0], w.shape[1];
        if |x| != cols then Err(Shape)
        else
          var bias :- BiasOf(m, biasId, rows);
          if |bias| < rows then Err(Panic)
          else Ok(Kernels.Linear(w.Values(), x, bias[..rows], rows, cols))
    case Requant(opId, inBuf, _, _, shift, zeroPoint, lo, hi, rounding) =>
      var x :- Get(bufs, inBuf).OkOr(MissingBuffer(inBuf));
      var mode :- FromDiscriminant(rounding).OkOr(InvalidRounding(opId, rounding));
      Ok(RequantAll(x, shift, zeroPoint, lo, hi, mode))
    case Activation(_, tableId, inBuf, _, _) =>
      var x :- Get(bufs, inBuf).OkOr(MissingBuffer(inBuf));
      var t :- FindTable(m.tables, tableId).OkOr(MissingTable(tableId));
      EvalAll(t, x).OkOr(TableDomain)
    case LayerNorm(opId, tableId, inBuf, _, _, shift, lo, hi, rounding) =>
      var x :- Get(bufs, inBuf).OkOr(MissingBuffer(inBuf));
      var t :- FindTable(m.tables, tableId).OkOr(MissingTable(tableId));
      var mode :- FromDiscriminant(rounding).OkOr(InvalidRounding(opId, rounding));
      Kernels.LayerNorm(x, t, Kernels.Requant(shift, lo, hi, mode)).OkOr(TableDomain)
    case Modulate(opId, xBuf, scaleBuf, shiftBuf, _, _, one, shift, lo, hi, rounding) =>
      var x :- Get(bufs, xBuf).OkOr(MissingBuffer(xBuf));
      var scale :- Get(bufs, scaleBuf).OkOr(MissingBuffer(scaleBuf));
      var offset :- Get(bufs, shiftBuf).OkOr(MissingBuffer(shiftBuf));
      var mode :- FromDiscriminant(rounding).OkOr(InvalidRounding(opId, rounding));
      if |scale| != |x| || |offset| != |x| then Err(Shape)
      else Ok(ModulateVec(x, scale, offset, one, Kernels.Requant(shift, lo, hi, mode)))
    case Gate(opId, gateBuf, xBuf, _, _, shift, lo, hi, rounding) =>
      var g :- Get(bufs, gateBuf).OkOr(MissingBuffer(gateBuf));
      var x :- Get(bufs, xBuf).OkOr(MissingBuffer(xBuf));
      var mode :- FromDiscriminant(rounding).OkOr(InvalidRounding(opId, rounding));
      if |g| != |x| then Err(Shape)
      else Ok(GateVec(g, x, Kernels.Requant(shift, lo, hi, mode)))
    case Add(_, aBuf, bBuf, _, _) =>
      var a :- Get(bufs, aBuf).OkOr(MissingBuffer(aBuf));
      var b :- Get(bufs, bBuf).OkOr(MissingBuffer(bBuf));
      if |a| != |b| then Err(Shape) else Ok(ResidualAdd(a, b))
    case MatMul(_, aBuf, bBuf, _, _, rows, inner, cols, transposeB) =>
      var a :- Get(bufs, aBuf).OkOr(MissingBuffer(aBuf));
      var b :- Get(bufs, bBuf).OkOr(MissingBuffer(bBuf));
      Kernels.MatMul(a, b, rows, inner, cols, transposeB).OkOr(Shape)
    case Softmax(_, tableId, inBuf, _, _, rowLen, one) =>
      var x :- Get(bufs, inBuf).OkOr(MissingBuffer(inBuf));
      var t :- FindTable(m.tables, tableId).OkOr(MissingTable(tableId));
      SoftmaxRows(x, rowLen, t, one).OkOr(TableDomain)
    case Slice(_, inBuf, _, start, len, _) =>
      var x :- Get(bufs, inBuf).OkOr(MissingBuffer(inBuf));
      if start + len > |x| then Err(Shape) else Ok(x[start..start + len])
    case Concat(_, inBufs, _, _) =>
      var out := ConcatBufs(bufs, inBufs);
      if out.Ok? then Ok(out.value) else Err(MissingBuffer(out.error))
    case BatchedLinear(_, weightId, biasId, inBuf, _, _, seqLen) =>
      var x :- Get(bufs, inBuf).OkOr(MissingBuffer(inBuf));
      var w :- FindTensor(m.weights, weightId).OkOr(MissingWeight(weightId));
      if |w.shape| != 2 then Err(Shape)
      else
        MatrixSize(w);
        var rows, cols := w.shape[0], w.shape[1];
        if |x| != seqLen * cols then Err(Shape)
        else
          var bias :- BiasOf(m, biasId, rows);
          if |bias| < rows && seqLen > 0 then Err(Panic)
          else if seqLen == 0 then Ok([])
          else Ok(LinearRows(w.Values(), x, bias[..rows], seqLen, rows, cols))
  }

  type Run = Result<(seq<BlockOp>, Bufs), BlockError>

  /** Run the ops in order: the filled ops and the final buffers. */
  function ProveOps(ops: seq<BlockOp>, m: Bindings, bufs: Bufs): (r: Run)
    ensures r.Ok? ==> |r.value.0| == |ops|
  {
    if |ops| == 0 then Ok(([], bufs))
    else
      var n := |ops| - 1;
      var (filled, bufs') :- ProveOps(ops[..n], m, bufs);
      var out :- ProveOp(ops[n], m, bufs');
      Ok((filled + [ops[n].SetOut(out)], bufs'[ops[n].outBuf := out]))
  }

  /** One more op that succeeds. */
  lemma RunSnoc(ops: seq<BlockOp>, m: Bindings, bufs: Bufs, filled: seq<BlockOp>, bufs': Bufs, out: seq<int>)
    requires |ops| > 0 && ProveOps(ops[..|ops| - 1], m, bufs) == Ok((filled, bufs'))
    requires ProveOp(ops[|ops| - 1], m, bufs') == Ok(out)
    ensures ProveOps(ops, m, bufs) == Ok((filled + [ops[|ops| - 1].SetOut(out)], bufs'[ops[|ops| - 1].outBuf := out]))
  {
    hide ProveOp;
  }

  function ProveBlock(block: Block, m: Bindings, inputs: Inputs): Result<Block, BlockError> {
    var (filled, _) :- ProveOps(block.ops, m, Seed(inputs));
    Ok(Block(block.inputBufs, filled, block.outputBuf))
  }

  // ------------------------------------------------------- the imperative prover

  method SeedBufs(inputs: Inputs) returns (bufs: Bufs)
    ensures bufs == Seed(inputs)
  {
    bufs := map[];
    for i := 0 to |inputs|
      invariant bufs == Seed(inputs[..i])
    {
      assert inputs[..i + 1][..i] == inputs[..i];
      bufs := bufs[inputs[i].0 := inputs[i].1];
    }
    assert inputs[..|inputs|] == inputs;
  }

  method EvalLoop(t: ActivationTable, xs: seq<int>) returns (r: Option<seq<int>>)
    ensures r == EvalAll(t, xs)
  {
    var out := [];
    for i := 0 to |xs|
      invariant EvalAll(t, xs[..i]) == Some(out)
    {
      var y := t.Eval(xs[i]);
      if y.None? {
        if EvalAll(t, xs).Some? { EvalAllAt(t, xs, i); }
        return None;
      }
      EvalAllSnoc(t, xs, i);
      out := out + [y.value];
    }
    assert xs[..|xs|] == xs;
    r := Some(out);
  }

  method ConcatLoop(bufs: Bufs, ids: seq<nat>) returns (r: Result<seq<int>, nat>)
    ensures r == ConcatBufs(bufs, ids)
  {
    var out := [];
    for i := 0 to |ids|
      invariant ConcatBufs(bufs, ids[..i]) == Ok(out)
    {
      assert ids[..i + 1][..i] == ids[..i];
      var x := Get(bufs, ids[i]);
      if x.None? {
        ConcatStuck(bufs, ids, i);
        return Err(ids[i]);
      }
      out := out + x.value;
    }
    assert ids[..|ids|] == ids;
    r := Ok(out);
  }

  lemma {:induction false} ConcatStuck(bufs: Bufs, ids: seq<nat>, i: nat)
    requires i < |ids| && ConcatBufs(bufs, ids[..i]).Ok? && Get(bufs, ids[i]).None?
    ensures ConcatBufs(bufs, ids) == Err(ids[i])
  {
    if i < |ids| - 1 {
      assert ids[..|ids| - 1][..i] == ids[..i];
      ConcatStuck(bufs, ids[..|ids| - 1], i);
    }
  }

  method LinearLoop(w: seq<int>, x: seq<int>, bias: seq<int>, s: nat, rows: nat, cols: nat) returns (out: seq<int>)
    requires |w| == rows * cols && |x| == s * cols && |bias| == rows
    ensures out == LinearRows(w, x, bias, s, rows, cols)
  {
    ghost var m := Rows(x, s, cols);
    ghost var y := LinearMat(w, m, bias, rows, cols);
    out := [];
    FlattenRows(x, s, cols);
    for t := 0 to s
      invariant out == Flatten(y[..t])
    {
      RowBounds(t, s, cols);
      FlattenRow(m, s, cols, t);
      var start := t * cols;
      out := out + Kernels.Linear(w, x[start..start + cols], bias, rows, cols);
      FlattenPrefix(y, t);
    }
    assert y[..s] == y;
  }

  method RunOp(op: BlockOp, m: Bindings, bufs: Bufs) returns (r: Result<seq<int>, BlockError>)
    ensures r == ProveOp(op, m, bufs)
  {
    match op
    case Activation(_, tableId, inBuf, _, _) =>
      var x :- Get(bufs, inBuf).OkOr(MissingBuffer(inBuf));
      var t :- FindTable(m.tables, tableId).OkOr(MissingTable(tableId));
      var out := EvalLoop(t, x);
      return out.OkOr(TableDomain);
    case MatMul(_, aBuf, bBuf, _, _, rows, inner, cols, transposeB) =>
      var a :- Get(bufs, aBuf).OkOr(MissingBuffer(aBuf));
      var b :- Get(bufs, bBuf).OkOr(MissingBuffer(bBuf));
      var out := ComputeMatMul(a, b, rows, inner, cols, transposeB);
      return out.OkOr(Shape);
    case Softmax(_, tableId, inBuf, _, _, rowLen, one) =>
      var x :- Get(bufs, inBuf).OkOr(MissingBuffer(inBuf));
      var t :- FindTable(m.tables, tableId).OkOr(MissingTable(tableId));
      var out := ComputeSoftmaxRows(x, rowLen, t, one);
      return out.OkOr(TableDomain);
    case Concat(_, inBufs, _, _) =>
      var out := ConcatLoop(bufs, inBufs);
      match out {
        case Ok(y) => return Ok(y);
        case Err(id) => return Err(MissingBuffer(id));
      }
    case BatchedLinear(_, weightId, biasId, inBuf, _, _, seqLen) =>
      var x :- Get(bufs, inBuf).OkOr(MissingBuffer(inBuf));
      var w :- FindTensor(m.weights, weightId).OkOr(MissingWeight(weightId));
      if |w.shape| != 2 { return Err(Shape); }
      MatrixSize(w);
      var rows, cols := w.shape[0], w.shape[1];
      if |x| != seqLen * cols { return Err(Shape); }
      var bias :- BiasOf(m, biasId, rows);
      if seqLen == 0 { return Ok([]); }
      if |bias| < rows { return Err(Panic); }
      var out := LinearLoop(w.Values(), x, bias[..rows], seqLen, rows, cols);
      return Ok(out);
    case _ =>
      return ProveOp(op, m, bufs);
  }

  /** The prover's loop: one buffer map, one growing list of filled ops. */
  method ProveBlockLoop(block: Block, m: Bindings, inputs: Inputs) returns (r: Result<Block, BlockError>)
    ensures r == ProveBlock(block, m, inputs)
  {
    hide ProveOp;
    var bufs := SeedBufs(inputs);
    var outOps: seq<BlockOp> := [];
    for i := 0 to |block.ops|
      invariant ProveOps(block.ops[..i], m, Seed(inputs)) == Ok((outOps, bufs))
    {
      var op := block.ops[i];
      assert block.ops[..i + 1][..i] == block.ops[..i];
      var out := RunOp(op, m, bufs);
      if out.Err? {
        ProveOpsStuck(block.ops, m, Seed(inputs), i + 1);
        return Err(out.error);
      }
      bufs := bufs[op.outBuf := out.value];
      outOps := outOps + [op.SetOut(out.value)];
    }
    assert block.ops[..|block.ops|] == block.ops;
    r := Ok(Block(block.inputBufs, outOps, block.outputBuf));
  }

  /** A failing prefix fails the whole run with the same error. */
  lemma {:induction false} ProveOpsStuck(ops: seq<BlockOp>, m: Bindings, bufs: Bufs, i: nat)
    requires i <= |ops| && ProveOps(ops[..i], m, bufs).Err?
    ensures ProveOps(ops, m, bufs) == Err(ProveOps(ops[..i], m, bufs).error)
  {
    if i < |ops| {
      assert ops[..|ops| - 1][..i] == ops[..i];
      ProveOpsStuck(ops[..|ops| - 1], m, bufs, i);
    } else {
      assert ops[..i] == ops;
    }
  }

  // ------------------------------------------------ what a run leaves behind

  /** The last op writing `id`, searching from the end. */
  function LastWriter(ops: seq<BlockOp>, id: nat): (r: Option<seq<int>>)
  {
    if |ops| == 0 then None
    else if ops[|ops| - 1].outBuf == id then Some(ops[|ops| - 1].out)
    else LastWriter(ops[..|ops| - 1], id)
  }

  /** The reverse search over the filled ops finds the final content of any written buffer. */
  lemma {:induction false} LastWriterIsFinal(ops: seq<BlockOp>, m: Bindings, bufs: Bufs, id: nat)
    requires ProveOps(ops, m, bufs).Ok?
    ensures var (filled, final) := ProveOps(ops, m, bufs).value;
            Get(final, id) == if LastWriter(filled, id).Some? then LastWriter(filled, id) else Get(bufs, id)
  {
    if |ops| != 0 {
      LastWriterIsFinal(ops[..|ops| - 1], m, bufs, id);
      var (filled, _) := ProveOps(ops, m, bufs).value;
      assert filled[..|filled| - 1] == ProveOps(ops[..|ops| - 1], m, bufs).value.0;
    }
  }

  /** Filling an op changes nothing but its claimed output. */
  lemma {:induction false} FilledSkeleton(ops: seq<BlockOp>, m: Bindings, bufs: Bufs)
    requires ProveOps(ops, m, bufs).Ok?
    ensures Skeleton(ProveOps(ops, m, bufs).value.0) == Skeleton(ops)
  {
    hide ProveOp, Skeleton, BlockOp.SetOut;
    if |ops| != 0 {
      var op, init := ops[|ops| - 1], ops[..|ops| - 1];
      FilledSkeleton(init, m, bufs);
      assert ops == init + [op];
      var filled, out := LastFilled(ops, m, bufs);
      SkeletonFilled(init, filled, op, out);
    }
  }

  lemma LastFilled(ops: seq<BlockOp>, m: Bindings, bufs: Bufs) returns (filled: seq<BlockOp>, out: seq<int>)
    requires |ops| > 0 && ProveOps(ops, m, bufs).Ok?
    ensures ProveOps(ops[..|ops| - 1], m, bufs).Ok? && filled == ProveOps(ops[..|ops| - 1], m, bufs).value.0
    ensures ProveOps(ops, m, bufs).value.0 == filled + [ops[|ops| - 1].SetOut(out)]
  {
    var run := ProveOps(ops[..|ops| - 1], m, bufs).value;
    filled, out := run.0, ProveOp(ops[|ops| - 1], m, run.1).value;
  }

  /** The claimed outputs of the ops given to the prover are ignored. */
  lemma {:induction false} ClaimsIgnored(ops: seq<BlockOp>, m: Bindings, bufs: Bufs)
    ensures ProveOps(Skeleton(ops), m, bufs) == ProveOps(ops, m, bufs)
  {
    hide ProveOp;
    if |ops| != 0 {
      var op, init := ops[|ops| - 1], ops[..|ops| - 1];
      ClaimsIgnored(init, m, bufs);
      assert ops == init + [op];
      SkeletonSnoc(init, op);
      assert Skeleton(ops)[..|ops| - 1] == Skeleton(init);
      SameStep(ops, Skeleton(ops), m, bufs);
    }
  }

  /** Lists that agree on their prefixes' runs and on their last op up to its claim agree. */
  lemma SameStep(a: seq<BlockOp>, b: seq<BlockOp>, m: Bindings, bufs: Bufs)
    requires |a| == |b| > 0 && b[|b| - 1] == a[|a| - 1].Cleared()
    requires ProveOps(a[..|a| - 1], m, bufs) == ProveOps(b[..|b| - 1], m, bufs)
    ensures ProveOps(a, m, bufs) == ProveOps(b, m, bufs)
  {
    var run := ProveOps(a[..|a| - 1], m, bufs);
    if run.Ok? {
      ClaimIgnored(a[|a| - 1], m, run.value.1);
    }
  }

  lemma ClaimIgnored(op: BlockOp, m: Bindings, bufs: Bufs)
    ensures ProveOp(op.Cleared(), m, bufs) == ProveOp(op, m, bufs)
    ensures forall out :: op.Cleared().SetOut(out) == op.SetOut(out)
  {
  }
}
