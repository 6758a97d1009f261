/**
 * The exact kernels on packed buffers compute what the direct semantics computes on
 * matrices: the two implementations, in different languages, agree.
 */
module FlatKernels {
  import opened Wrappers
  import opened Arith
  import opened Matrix
  import opened FixedPoint
  import opened Kernels
  import opened SoftmaxAgreement
  import IF = IntegerForward

  // ------------------------------------------------------------- cells of a buffer

  /** Entry `j` of row `p` sits at offset `k` of a packed buffer. */
  predicate Spot(k: nat, p: nat, j: nat, width: nat) {
    k == p * width + j
  }

  lemma Locate(m: Mat, rows: nat, width: nat, k: nat) returns (p: nat, j: nat)
    requires IsMat(m, rows, width) && k < |Flatten(m)|
    ensures p < rows && j < width && Spot(k, p, j, width)
  {
    FlattenSize(m, rows, width);
    if width == 0 { assert false; }
    p, j := k / width, k % width;
    if p >= rows { MulMono(rows, p, width); }
  }

  lemma Cell(m: Mat, rows: nat, width: nat, p: nat, j: nat, k: nat)
    requires IsMat(m, rows, width) && p < rows && j < width && Spot(k, p, j, width)
    ensures k < |Flatten(m)| && Flatten(m)[k] == m[p][j]
  {
    FlattenRow(m, rows, width, p);
    assert Flatten(m)[p * width..p * width + width][j] == Flatten(m)[p * width + j];
  }

  lemma SameSize(a: Mat, b: Mat, rows: nat, width: nat)
    requires IsMat(a, rows, width) && IsMat(b, rows, width)
    ensures |Flatten(a)| == |Flatten(b)|
  {
    FlattenSize(a, rows, width);
    FlattenSize(b, rows, width);
  }

  lemma MatExt(a: Mat, b: Mat, rows: nat, width: nat)
    requires IsMat(a, rows, width) && IsMat(b, rows, width)
    requires forall p, j :: 0 <= p < rows && 0 <= j < width ==> a[p][j] == b[p][j]
    ensures a == b
  {
    forall p | 0 <= p < rows ensures a[p] == b[p] {
    }
  }

  // ------------------------------------------------------------- entry by entry

  const RQ_LO := IF.CLO
  const RQ_HI := IF.CHI

  function Int8Requant(shift: nat): Requant {
    Requant(shift, RQ_LO, RQ_HI, NearestTiesToEven)
  }

  /** The two rounding codes agree, below zero too. */
  lemma RequantAgrees(x: int, shift: nat)
    ensures Requantize(x, shift, 0, RQ_LO, RQ_HI, NearestTiesToEven) == IF.PyRequant(x, shift)
  {
    var s := SplitPow2(x, shift);
    if shift == 0 {
      assert Pow2(0) == 1;
    } else {
      assert Pow2(shift) == 2 * Pow2(shift - 1);
    }
  }

  lemma RequantFlat(x: Mat, rows: nat, width: nat, shift: nat)
    requires IsMat(x, rows, width)
    ensures RequantAll(Flatten(x), shift, 0, RQ_LO, RQ_HI, NearestTiesToEven) == Flatten(IF.RequantMat(x, shift))
  {
    hide Flatten, Spot;
    var y := IF.RequantMat(x, shift);
    SameSize(x, y, rows, width);
    forall k | 0 <= k < |Flatten(x)|
      ensures Requantize(Flatten(x)[k], shift, 0, RQ_LO, RQ_HI, NearestTiesToEven) == Flatten(y)[k]
    {
      var p, j := Locate(x, rows, width, k);
      Cell(x, rows, width, p, j, k);
      Cell(y, rows, width, p, j, k);
      RequantAgrees(x[p][j], shift);
    }
  }

  lemma ModulateCell(n: Mat, sc: Mat, sh: Mat, one: int, bits: nat, rows: nat, width: nat, p: nat, j: nat)
    requires IsMat(n, rows, width) && IsMat(sc, rows, width) && IsMat(sh, rows, width) && p < rows && j < width
    ensures IF.ModulateMat(n, sc, sh, one, bits, width)[p][j]
            == Modulate(n[p][j], sc[p][j], sh[p][j], one, Int8Requant(bits))
  {
    RequantAgrees(n[p][j] * (one + sc[p][j]), bits);
  }

  lemma ModulateFlat(n: Mat, sc: Mat, sh: Mat, one: int, bits: nat, rows: nat, width: nat)
    requires IsMat(n, rows, width) && IsMat(sc, rows, width) && IsMat(sh, rows, width)
    ensures |Flatten(n)| == |Flatten(sc)| == |Flatten(sh)|
    ensures ModulateVec(Flatten(n), Flatten(sc), Flatten(sh), one, Int8Requant(bits))
            == Flatten(IF.ModulateMat(n, sc, sh, one, bits, width))
  {
    hide Modulate, IF.ModulateMat, Flatten, Spot;
    var y := IF.ModulateMat(n, sc, sh, one, bits, width);
    SameSize(n, sc, rows, width);
    SameSize(n, sh, rows, width);
    SameSize(n, y, rows, width);
    forall k | 0 <= k < |Flatten(n)|
      ensures Modulate(Flatten(n)[k], Flatten(sc)[k], Flatten(sh)[k], one, Int8Requant(bits)) == Flatten(y)[k]
    {
      var p, j := Locate(n, rows, width, k);
      Cell(n, rows, width, p, j, k);
      Cell(sc, rows, width, p, j, k);
      Cell(sh, rows, width, p, j, k);
      Cell(y, rows, width, p, j, k);
      ModulateCell(n, sc, sh, one, bits, rows, width, p, j);
    }
  }

  /** Gate, add, requantize by nothing: the gated residual. */
  lemma ResidualFlat(x: Mat, g: Mat, a: Mat, bits: nat, rows: nat, width: nat)
    requires IsMat(x, rows, width) && IsMat(g, rows, width) && IsMat(a, rows, width)
    ensures |Flatten(x)| == |Flatten(g)| == |Flatten(a)|
    ensures RequantAll(ResidualAdd(Flatten(x), GateVec(Flatten(g), Flatten(a), Int8Requant(bits))), 0, 0, RQ_LO,
                       RQ_HI, NearestTiesToEven)
            == Flatten(IF.GatedResidual(x, g, a, bits, width))
  {
    hide Requantize, IF.GatedResidual, Requant.Apply, Flatten, Spot;
    var y := IF.GatedResidual(x, g, a, bits, width);
    GatedShape(x, g, a, bits, rows, width);
    SameSize(x, g, rows, width);
    SameSize(x, a, rows, width);
    SameSize(x, y, rows, width);
    forall k | 0 <= k < |Flatten(x)|
      ensures Requantize(Flatten(x)[k] + Int8Requant(bits).Apply(Flatten(g)[k] * Flatten(a)[k]), 0, 0, RQ_LO, RQ_HI,
                         NearestTiesToEven) == Flatten(y)[k]
    {
      var p, j := Locate(x, rows, width, k);
      Cell(x, rows, width, p, j, k);
      Cell(g, rows, width, p, j, k);
      Cell(a, rows, width, p, j, k);
      Cell(y, rows, width, p, j, k);
      ResidualCell(x, g, a, bits, rows, width, p, j);
    }
  }

  lemma GatedShape(x: Mat, g: Mat, a: Mat, bits: nat, rows: nat, width: nat)
    requires IsMat(x, rows, width) && IsMat(g, rows, width) && IsMat(a, rows, width)
    ensures IsMat(IF.GatedResidual(x, g, a, bits, width), rows, width)
  {
  }

  lemma ResidualCell(x: Mat, g: Mat, a: Mat, bits: nat, rows: nat, width: nat, p: nat, j: nat)
    requires IsMat(x, rows, width) && IsMat(g, rows, width) && IsMat(a, rows, width) && p < rows && j < width
    ensures IF.GatedResidual(x, g, a, bits, width)[p][j]
         == Requantize(x[p][j] + Int8Requant(bits).Apply(g[p][j] * a[p][j]), 0, 0, RQ_LO, RQ_HI, NearestTiesToEven)
  {
    RequantAgrees(g[p][j] * a[p][j], bits);
    RequantAgrees(x[p][j] + IF.PyRequant(g[p][j] * a[p][j], bits), 0);
  }

  lemma {:induction false} EvalAppend(t: ActivationTable, a: seq<int>, b: seq<int>)
    requires EvalAll(t, a).Some? && EvalAll(t, b).Some?
    ensures EvalAll(t, a + b) == Some(EvalAll(t, a).value + EvalAll(t, b).value)
  {
    if b == [] {
      assert a + b == a && EvalAll(t, a).value + [] == EvalAll(t, a).value;
    } else {
      var c := b[..|b| - 1];
      EvalAppend(t, a, c);
      assert (a + b)[..|a + b| - 1] == a + c;
      assert (a + b)[|a + b| - 1] == b[|b| - 1];
      var y := [t.Eval(b[|b| - 1]).value];
      assert (EvalAll(t, a).value + EvalAll(t, c).value) + y == EvalAll(t, a).value + (EvalAll(t, c).value + y);
    }
  }

  lemma {:induction false} EvalFlat(t: ActivationTable, x: Mat)
    requires IF.EvalMat(t, x).Some?
    ensures EvalAll(t, Flatten(x)) == Some(Flatten(IF.EvalMat(t, x).value))
  {
    if |x| != 0 {
      var y := IF.EvalMat(t, x).value;
      EvalFlat(t, x[..|x| - 1]);
      EvalAppend(t, Flatten(x[..|x| - 1]), x[|x| - 1]);
      FlattenSnoc(y[..|x| - 1], y[|x| - 1]);
    }
  }

  // --------------------------------------------------------------------- row by row

  lemma LayerNormAgrees(row: seq<int>, t: ActivationTable, shift: nat)
    requires |row| > 0
    ensures LayerNorm(row, t, Int8Requant(shift)) == IF.LnRow(row, t, shift)
  {
    var c := Centered(row, Mean(row));
    assert seq(|row|, j requires 0 <= j < |row| => row[j] - Mean(row)) == c;
    var inv := t.Eval(Variance(row));
    if inv.Some? {
      forall j | 0 <= j < |row|
        ensures Int8Requant(shift).Apply(c[j] * inv.value) == IF.PyRequant(c[j] * inv.value, shift)
      {
        RequantAgrees(c[j] * inv.value, shift);
      }
      var prods := seq(|row|, j requires 0 <= j < |row| => c[j] * inv.value);
      assert LayerNorm(row, t, Int8Requant(shift)).value == IF.RequantRow(prods, shift);
    }
  }

  lemma {:induction false} SoftmaxMatAgrees(x: Mat, t: ActivationTable, one: int)
    requires SoftmaxSafe(t, one)
    requires forall p :: 0 <= p < |x| ==> |x[p]| > 0
    requires forall p :: 0 <= p < |x| ==> IF.SoftmaxRow(x[p], t, one).Some?
    ensures SoftmaxMat(x, t, one).Some?
  {
    if |x| != 0 {
      Agree(x[0], t, one);
      SoftmaxMatAgrees(x[1..], t, one);
    }
  }

  lemma SoftmaxFlat(x: Mat, rows: nat, width: nat, t: ActivationTable, one: int)
    requires IsMat(x, rows, width) && width > 0 && SoftmaxSafe(t, one) && IF.SoftmaxRowsInt(x, t, one).Some?
    ensures SoftmaxRows(Flatten(x), width, t, one) == Some(Flatten(IF.SoftmaxRowsInt(x, t, one).value))
  {
    var y := IF.SoftmaxRowsInt(x, t, one).value;
    SoftmaxMatAgrees(x, t, one);
    var z := SoftmaxMat(x, t, one).value;
    forall p | 0 <= p < rows ensures z[p] == y[p] {
      SoftmaxMatRow(x, t, one, p);
      Agree(x[p], t, one);
    }
    assert z == y;
    FlattenSize(x, rows, width);
    ModUnique(rows * width, width, rows, 0);
    SoftmaxChunksOfRows([], x, width, t, one);
    assert [] + Flatten(z) == Flatten(z);
  }

  // -------------------------------------------------------------------- products

  lemma {:induction false} DotNCommutes(a: seq<int>, b: seq<int>, n: nat)
    requires n <= |a| && n <= |b|
    ensures DotN(a, b, n) == DotN(b, a, n)
  {
    if n != 0 { DotNCommutes(a, b, n - 1); }
  }

  lemma WeightRow(w: seq<int>, rows: nat, cols: nat, i: nat)
    requires |w| == rows * cols && i < rows
    ensures i * cols + cols <= |w| && Rows(w, rows, cols)[i] == Row(w, i, cols)
  {
    RowBounds(i, rows, cols);
    FlattenRows(w, rows, cols);
    FlattenRow(Rows(w, rows, cols), rows, cols, i);
  }

  lemma LinearAgrees(w: seq<int>, x: Mat, rows: nat, cols: nat)
    requires IsMat(x, |x|, cols) && |w| == rows * cols
    ensures LinearMat(w, x, Zeros(rows), rows, cols) == IF.LinearInt(x, w, rows, cols)
  {
    var a, b := LinearMat(w, x, Zeros(rows), rows, cols), IF.LinearInt(x, w, rows, cols);
    forall p, i | 0 <= p < |x| && 0 <= i < rows ensures a[p][i] == b[p][i] {
      WeightRow(w, rows, cols, i);
      DotNCommutes(Row(w, i, cols), x[p], cols);
    }
    MatExt(a, b, |x|, rows);
  }

  lemma LinearFlat(w: seq<int>, x: Mat, s: nat, rows: nat, cols: nat)
    requires IsMat(x, s, cols) && |w| == rows * cols
    ensures |Flatten(x)| == s * cols
    ensures LinearRows(w, Flatten(x), Zeros(rows), s, rows, cols) == Flatten(IF.LinearInt(x, w, rows, cols))
  {
    RowsFlatten(x, s, cols);
    LinearAgrees(w, x, rows, cols);
  }

  lemma TransposedCol(y: Mat, rows: nat, inner: nat, j: nat)
    requires IsMat(y, rows, inner) && j < rows
    ensures |Flatten(y)| == rows * inner && MatMulCol(Flatten(y), inner, rows, true, j) == y[j]
  {
    FlattenSize(y, rows, inner);
    forall k | 0 <= k < inner ensures MatMulEntry(Flatten(y), inner, rows, true, j, k) == y[j][k] {
      RowBounds(j, rows, inner);
      Cell(y, rows, inner, j, k, j * inner + k);
    }
  }

  lemma TimesTransposedFlat(x: Mat, y: Mat, rows: nat, inner: nat, cols: nat)
    requires IsMat(x, rows, inner) && IsMat(y, cols, inner)
    ensures Kernels.MatMul(Flatten(x), Flatten(y), rows, inner, cols, true)
            == Some(Flatten(IF.TimesTransposed(x, y, inner)))
  {
    RowsFlatten(x, rows, inner);
    FlattenSize(y, cols, inner);
    var z := MatMulMat(x, Flatten(y), inner, cols, true);
    forall p, j | 0 <= p < rows && 0 <= j < cols ensures z[p][j] == IF.TimesTransposed(x, y, inner)[p][j] {
      TransposedCol(y, cols, inner, j);
    }
    MatExt(z, IF.TimesTransposed(x, y, inner), rows, cols);
  }

  lemma PlainCol(y: Mat, inner: nat, cols: nat, j: nat)
    requires IsMat(y, inner, cols) && j < cols
    ensures |Flatten(y)| == cols * inner && MatMulCol(Flatten(y), inner, cols, false, j) == IF.Column(y, cols, j)
  {
    FlattenSize(y, inner, cols);
    forall k | 0 <= k < inner ensures MatMulEntry(Flatten(y), inner, cols, false, j, k) == y[k][j] {
      RowBounds(k, inner, cols);
      Cell(y, inner, cols, k, j, k * cols + j);
    }
  }

  lemma TimesFlat(x: Mat, y: Mat, rows: nat, inner: nat, cols: nat)
    requires IsMat(x, rows, inner) && IsMat(y, inner, cols)
    ensures Kernels.MatMul(Flatten(x), Flatten(y), rows, inner, cols, false)
            == Some(Flatten(IF.Times(x, y, inner, cols)))
  {
    RowsFlatten(x, rows, inner);
    FlattenSize(y, inner, cols);
    var z := MatMulMat(x, Flatten(y), inner, cols, false);
    forall p, j | 0 <= p < rows && 0 <= j < cols ensures z[p][j] == IF.Times(x, y, inner, cols)[p][j] {
      PlainCol(y, inner, cols, j);
    }
    MatExt(z, IF.Times(x, y, inner, cols), rows, cols);
  }
}
