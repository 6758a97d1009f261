/**
 * crates/pwm-export/python/pwm_export/predictor_quant.py: the direct semantics as it is
 * run, with rows appended, head columns written and the stream rebound block by block.
 */
module IntegerForwardRun {
  import opened Wrappers
  import opened Arith
  import opened Matrix
  import opened Kernels
  import opened IntegerForward

  method LnRowsRun(x: Mat, t: ActivationTable, shift: nat) returns (r: Option<Mat>)
    requires forall p :: 0 <= p < |x| ==> |x[p]| > 0
    ensures r == LnRows(x, t, shift)
  {
    hide LnRow;
    var rows: Mat := [];
    for p := 0 to |x|
      invariant LnRows(x[..p], t, shift) == Some(rows)
    {
      assert x[..p + 1][..p] == x[..p];
      var row := LnRow(x[p], t, shift);
      if row.None? {
        LnRowsStuck(x, t, shift, p + 1);
        return None;
      }
      rows := rows + [row.value];
    }
    assert x[..|x|] == x;
    r := Some(rows);
  }

  lemma {:induction false} LnRowsStuck(x: Mat, t: ActivationTable, shift: nat, i: nat)
    requires i <= |x| && (forall p :: 0 <= p < |x| ==> |x[p]| > 0) && LnRows(x[..i], t, shift).None?
    ensures LnRows(x, t, shift).None?
  {
    hide LnRow;
    if i < |x| {
      assert x[..|x| - 1][..i] == x[..i];
      LnRowsStuck(x[..|x| - 1], t, shift, i);
    } else {
      assert x[..i] == x;
    }
  }

  method SoftmaxRowsRun(x: Mat, t: ActivationTable, one: int) returns (r: Option<Mat>)
    requires forall p :: 0 <= p < |x| ==> |x[p]| > 0
    ensures r == SoftmaxRowsInt(x, t, one)
  {
    hide SoftmaxRow;
    var rows: Mat := [];
    for p := 0 to |x|
      invariant SoftmaxRowsInt(x[..p], t, one) == Some(rows)
    {
      assert x[..p + 1][..p] == x[..p];
      var row := SoftmaxRow(x[p], t, one);
      if row.None? {
        SoftmaxRowsStuck(x, t, one, p + 1);
        return None;
      }
      rows := rows + [row.value];
    }
    assert x[..|x|] == x;
    r := Some(rows);
  }

  lemma {:induction false} SoftmaxRowsStuck(x: Mat, t: ActivationTable, one: int, i: nat)
    requires i <= |x| && (forall p :: 0 <= p < |x| ==> |x[p]| > 0) && SoftmaxRowsInt(x[..i], t, one).None?
    ensures SoftmaxRowsInt(x, t, one).None?
  {
    hide SoftmaxRow;
    if i < |x| {
      assert x[..|x| - 1][..i] == x[..i];
      SoftmaxRowsStuck(x[..|x| - 1], t, one, i);
    } else {
      assert x[..i] == x;
    }
  }

  method HeadRun(q: Mat, k: Mat, v: Mat, n: Dims, i: nat, dp: DerivedParams, t: Tables) returns (r: Option<Mat>)
    requires n.s >= 1 && i < n.h
    requires IsMat(q, n.s, n.Inner()) && IsMat(k, n.s, n.Inner()) && IsMat(v, n.s, n.Inner())
    ensures r == HeadOut(q, k, v, n, i, dp, t)
  {
    var off, inner := HeadOff(n, i), n.Inner();
    var qh, kh, vh := Cols(q, inner, off, n.dh), Cols(k, inner, off, n.dh), Cols(v, inner, off, n.dh);
    hide Cols, TimesTransposed, RequantMat, Times, SoftmaxRowsInt, HeadOff, Dims.Inner;
    var scores := RequantMat(TimesTransposed(qh, kh, n.dh), dp.scoreShift);
    var prob :- SoftmaxRowsRun(scores, t.exp, dp.softmaxOne);
    r := Some(RequantMat(Times(prob, vh, n.s, n.dh), dp.ohShift));
  }

  /** `heads` starts blank and is written one head's columns at a time. */
  method HeadsRun(q: Mat, k: Mat, v: Mat, n: Dims, dp: DerivedParams, t: Tables) returns (r: Option<Mat>)
    requires n.s >= 1
    requires IsMat(q, n.s, n.Inner()) && IsMat(k, n.s, n.Inner()) && IsMat(v, n.s, n.Inner())
    ensures r == Heads(q, k, v, n, n.h, dp, t)
  {
    var heads := Blank(n.s, n.Inner());
    assert Heads(q, k, v, n, 0, dp, t) == Some(heads);
    hide HeadOut, PutHead, Heads, Blank;
    for i := 0 to n.h
      invariant IsMat(heads, n.s, n.Inner())
      invariant Heads(q, k, v, n, i, dp, t) == Some(heads)
    {
      var out := HeadRun(q, k, v, n, i, dp, t);
      if out.None? {
        if Heads(q, k, v, n, n.h, dp, t).Some? { HeadDefined(q, k, v, n, n.h, dp, t, i); }
        return None;
      }
      HeadsStep(q, k, v, n, i, dp, t);
      heads := PutHead(heads, out.value, n, i);
    }
    r := Some(heads);
  }

  method AttnRun(m: Mat, qb: QuantBlock, n: Dims, dp: DerivedParams, bs: BlockShifts, t: Tables)
    returns (r: Option<Mat>)
    requires n.s >= 1 && n.d >= 1 && IsMat(m, n.s, n.d) && qb.Shaped(n)
    ensures r == AttnMat(m, qb, n, dp, bs, t)
  {
    hide LnRows, Heads, LinearInt, RequantMat, Cols, Dims.Inner;
    var inner := n.Inner();
    var a0 :- LnRowsRun(m, t.invSqrt, dp.lnShift);
    var qkv := RequantMat(LinearInt(a0, qb.qkv, 3 * inner, n.d), bs.qkv);
    var q, k, v := Cols(qkv, 3 * inner, 0, inner), Cols(qkv, 3 * inner, inner, inner),
        Cols(qkv, 3 * inner, 2 * inner, inner);
    var heads :- HeadsRun(q, k, v, n, dp, t);
    r := Some(RequantMat(LinearInt(heads, qb.out, n.d, inner), bs.out));
  }

  method FfnRun(m: Mat, qb: QuantBlock, n: Dims, dp: DerivedParams, bs: BlockShifts, t: Tables) returns (r: Option<Mat>)
    requires n.s >= 1 && n.d >= 1 && IsMat(m, n.s, n.d) && qb.Shaped(n)
    ensures r == FfnMat(m, qb, n, dp, bs, t)
  {
    hide LnRows, LinearInt, RequantMat;
    var f0 :- LnRowsRun(m, t.invSqrt, dp.lnShift);
    var h1 := RequantMat(LinearInt(f0, qb.fc1, n.mlp, n.d), bs.fc1);
    var g :- EvalMat(t.gelu, h1);
    r := Some(RequantMat(LinearInt(g, qb.fc2, n.d, n.mlp), bs.fc2));
  }

  method BlockRun(x: Mat, siluC: Mat, qb: QuantBlock, n: Dims, dp: DerivedParams, bs: BlockShifts, t: Tables)
    returns (r: Option<Mat>)
    requires n.s >= 1 && n.d >= 1 && IsMat(x, n.s, n.d) && IsMat(siluC, n.s, n.d) && qb.Shaped(n)
    ensures r == IntegerBlock(x, siluC, qb, n, dp, bs, t)
  {
    hide LnRows, LinearInt, RequantMat, Chunk, ModulateMat, GatedResidual, AttnMat, FfnMat;
    var ada := RequantMat(LinearInt(siluC, qb.adaln, 6 * n.d, n.d), bs.adaln);
    var n1 :- LnRowsRun(x, t.invSqrt, dp.lnShift);
    var m1 := ModulateMat(n1, Chunk(ada, n, 1), Chunk(ada, n, 0), dp.modOne, dp.modBits, n.d);
    var a :- AttnRun(m1, qb, n, dp, bs, t);
    var x1 := GatedResidual(x, Chunk(ada, n, 2), a, dp.gateMsaBits, n.d);
    var n2 :- LnRowsRun(x1, t.invSqrt, dp.lnShift);
    var m2 := ModulateMat(n2, Chunk(ada, n, 4), Chunk(ada, n, 3), dp.modOne, dp.modBits, n.d);
    var f :- FfnRun(m2, qb, n, dp, bs, t);
    r := Some(GatedResidual(x1, Chunk(ada, n, 5), f, dp.gateMlpBits, n.d));
  }

  /** `integer_forward`: the stream is rebound once per block. */
  method ForwardRun(n: Dims, qbs: seq<QuantBlock>, xq: seq<int>, cq: seq<int>, dp: DerivedParams, t: Tables)
    returns (r: Option<seq<int>>)
    requires n.s >= 1 && n.d >= 1 && |xq| == n.s * n.d && |cq| == n.s * n.d
    requires |qbs| == |dp.blocks| && forall j :: 0 <= j < |qbs| ==> qbs[j].Shaped(n)
    ensures r == Forward(n, qbs, xq, cq, dp, t)
  {
    hide IntegerBlock, LnRows, EvalMat, QuantBlock.Shaped, Rows, Flatten;
    var start := Rows(xq, n.s, n.d);
    var siluC :- EvalMat(t.silu, Rows(cq, n.s, n.d));
    var x := start;
    for i := 0 to |qbs|
      invariant IsMat(x, n.s, n.d) && Stream(start, siluC, qbs, n, dp, t, i) == Some(x)
    {
      var next := BlockRun(x, siluC, qbs[i], n, dp, dp.blocks[i], t);
      if next.None? {
        if Stream(start, siluC, qbs, n, dp, t, |qbs|).Some? {
          StreamDefined(start, siluC, qbs, n, dp, t, i + 1, |qbs|);
        }
        return None;
      }
      x := next.value;
    }
    var z :- LnRowsRun(x, t.invSqrt, dp.lnShift);
    r := Some(Flatten(z));
  }
}
