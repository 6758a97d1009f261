/**
 * The kernels of crates/pwm-core/src/predictor.rs and fixed_point.rs over 64-bit words,
 * where every operation that leaves the range would trap. On the runs that module
 * Overflow describes none does, and the words computed are the integers of the
 * unbounded kernels.
 */
module Machine {
  import opened Wrappers
  import opened Arith
  import opened Matrix
  import opened FixedPoint
  import opened Kernels
  import opened Overflow
  import Field

  newtype I64 = x: int | -0x8000_0000_0000_0000 <= x <= 0x7fff_ffff_ffff_ffff

  /** The integers of a slice of words. */
  function Wide(xs: seq<I64>): (w: seq<int>)
    ensures |w| == |xs| && forall i :: 0 <= i < |xs| ==> w[i] == xs[i] as int
  {
    seq(|xs|, i requires 0 <= i < |xs| => xs[i] as int)
  }

  lemma WideSnoc(xs: seq<I64>, x: I64)
    ensures Wide(xs + [x]) == Wide(xs) + [x as int]
  {
  }

  // -------------------------------------------------------------- scalar operations

  method RoundDivWord(a: I64, n: I64) returns (q: I64)
    requires n > 0 && RoundDivFits(a as int, n as int)
    ensures q as int == RoundDiv(a as int, n as int)
  {
    if a >= 0 {
      q := (a + n / 2) / n;
    } else {
      q := -((-a + n / 2) / n);
    }
  }

  method RequantizeWord(n: I64, r: nat, zeroPoint: I64, lo: I64, hi: I64, mode: Rounding) returns (v: I64)
    requires RequantFits(n as int, r, zeroPoint as int, mode)
    ensures v as int == Requantize(n as int, r, zeroPoint as int, lo as int, hi as int, mode)
  {
    var rounded := RescaleWord(n, r, mode);
    var x := rounded + zeroPoint;
    v := if x < lo then lo else if x > hi then hi else x;
  }

  method RescaleWord(n: I64, r: nat, mode: Rounding) returns (q: I64)
    requires ValidShift(r) && Field.FitsI64(Rescale(n as int, r, mode))
    ensures q as int == Rescale(n as int, r, mode)
  {
    ShiftFitsI64(r);
    var divisor := Pow2(r) as I64;
    var rem := n % divisor;
    q := n / divisor;
    if rem != 0 {
      match mode {
        case NearestTiesToEven =>
          var half := Pow2(r - 1) as I64;
          if rem > half {
            q := q + 1;
          } else if rem == half {
            q := q + q % 2;
          }
        case TruncateTowardZero =>
          if n < 0 { q := q + 1; }
      }
    }
  }

  /** From the quotient with a nonnegative remainder to the one toward zero. */
  lemma EuclidToTrunc(a: int, b: int)
    requires b != 0
    ensures TruncDiv(a, b) == if a >= 0 || a % b == 0 then a / b else if b > 0 then a / b + 1 else a / b - 1
  {
    hide TruncDiv;
    var q := if a >= 0 || a % b == 0 then a / b else if b > 0 then a / b + 1 else a / b - 1;
    assert a == a / b * b + a % b;
    assert q == a / b + 1 ==> q * b == a / b * b + b;
    assert q == a / b - 1 ==> q * b == a / b * b - b;
    TruncDivTruncates(a, b, q);
  }

  /** Division toward zero, as the machine divides. */
  method DivWord(a: I64, b: I64) returns (q: I64)
    requires b != 0 && Field.FitsI64(TruncDiv(a as int, b as int))
    ensures q as int == TruncDiv(a as int, b as int)
  {
    hide TruncDiv, LeftOver;
    EuclidToTrunc(a as int, b as int);
    q := a / b;
    if a < 0 && a % b != 0 {
      q := if b > 0 then q + 1 else q - 1;
    }
  }

  datatype TableWords = TableWords(tableId: nat, lo: I64, outputs: seq<I64>) {
    function Table(): ActivationTable { ActivationTable(tableId, lo as int, Wide(outputs)) }
  }

  method EvalWord(t: TableWords, x: I64) returns (y: Option<I64>)
    requires LookupFits(t.Table(), x as int)
    ensures t.Table().Eval(x as int) == if y.Some? then Some(y.value as int) else None
  {
    if x < t.lo { return None; }
    var idx := (x - t.lo) as nat;
    y := if idx < |t.outputs| then Some(t.outputs[idx]) else None;
  }

  // ------------------------------------------------------------------ vector kernels

  /** `sum of a[i]·b[i]`, added up from the left. */
  method DotWords(a: seq<I64>, b: seq<I64>) returns (acc: I64)
    requires |a| == |b| && DotFits(Wide(a), Wide(b))
    ensures acc as int == DotN(Wide(a), Wide(b), |a|)
  {
    acc := 0;
    for i := 0 to |a|
      invariant acc as int == DotN(Wide(a), Wide(b), i)
    {
      ghost var next := DotN(Wide(a), Wide(b), i + 1);
      assert Field.FitsI64(Wide(a)[i] * Wide(b)[i]) && Field.FitsI64(next);
      acc := acc + a[i] * b[i];
    }
  }

  method SumWords(a: seq<I64>) returns (acc: I64)
    requires SumsFit(Wide(a))
    ensures acc as int == Sum(Wide(a))
  {
    acc := 0;
    for i := 0 to |a|
      invariant acc as int == SumN(Wide(a), i)
    {
      assert Field.FitsI64(SumN(Wide(a), i + 1));
      acc := acc + a[i];
    }
  }

  method LinearWords(w: seq<I64>, x: seq<I64>, bias: seq<I64>, rows: nat, cols: nat) returns (out: seq<I64>)
    requires |w| == rows * cols && |x| == cols && |bias| == rows
    requires LinearFits(Wide(w), Wide(x), Wide(bias), rows, cols)
    ensures Wide(out) == Kernels.Linear(Wide(w), Wide(x), Wide(bias), rows, cols)
  {
    hide DotN, DotFits, Row;
    out := [];
    ghost var full := Kernels.Linear(Wide(w), Wide(x), Wide(bias), rows, cols);
    for r := 0 to rows
      invariant |out| == r && forall i :: 0 <= i < r ==> out[i] as int == full[i]
    {
      WideRow(w, r, rows, cols);
      var base := r * cols;
      var acc := DotWords(w[base..base + cols], x);
      out := out + [bias[r] + acc];
    }
  }

  lemma WideRow(w: seq<I64>, r: nat, rows: nat, cols: nat)
    requires |w| == rows * cols && r < rows
    ensures 0 <= r * cols && r * cols + cols <= |w|
    ensures Wide(w[r * cols..r * cols + cols]) == Row(Wide(w), r, cols)
  {
    RowBounds(r, rows, cols);
  }

  method RequantWords(xs: seq<I64>, shift: nat, zeroPoint: I64, lo: I64, hi: I64, mode: Rounding)
    returns (out: seq<I64>)
    requires forall i :: 0 <= i < |xs| ==> RequantFits(Wide(xs)[i], shift, zeroPoint as int, mode)
    ensures Wide(out) == RequantAll(Wide(xs), shift, zeroPoint as int, lo as int, hi as int, mode)
  {
    hide RequantFits, Requantize;
    out := [];
    for i := 0 to |xs|
      invariant |out| == i
      invariant forall j :: 0 <= j < i ==>
        out[j] as int == Requantize(xs[j] as int, shift, zeroPoint as int, lo as int, hi as int, mode)
    {
      assert RequantFits(Wide(xs)[i], shift, zeroPoint as int, mode);
      var v := RequantizeWord(xs[i], shift, zeroPoint, lo, hi, mode);
      out := out + [v];
    }
  }

  method ModulateWords(x: seq<I64>, scale: seq<I64>, shift: seq<I64>, one: I64, bits: nat, lo: I64, hi: I64,
                       mode: Rounding) returns (out: seq<I64>)
    requires forall i :: 0 <= i < |x| && i < |scale| && i < |shift| ==>
      ModulateFits(Wide(x)[i], Wide(scale)[i], Wide(shift)[i], one as int,
                   Kernels.Requant(bits, lo as int, hi as int, mode))
    ensures Wide(out) == ModulateVec(Wide(x), Wide(scale), Wide(shift), one as int,
                                     Kernels.Requant(bits, lo as int, hi as int, mode))
  {
    hide RequantFits, Requantize;
    ghost var rq := Kernels.Requant(bits, lo as int, hi as int, mode);
    out := [];
    for i := 0 to Min(Min(|x|, |scale|), |shift|)
      invariant |out| == i
      invariant forall j :: 0 <= j < i ==>
        out[j] as int == Kernels.Modulate(x[j] as int, scale[j] as int, shift[j] as int, one as int, rq)
    {
      assert ModulateFits(Wide(x)[i], Wide(scale)[i], Wide(shift)[i], one as int, rq);
      var prod := x[i] * (one + scale[i]);
      var v := RequantizeWord(prod, bits, 0, lo, hi, mode);
      out := out + [v + shift[i]];
    }
  }

  method GateWords(g: seq<I64>, x: seq<I64>, bits: nat, lo: I64, hi: I64, mode: Rounding) returns (out: seq<I64>)
    requires forall i :: 0 <= i < |g| && i < |x| ==> RequantFits(Wide(g)[i] * Wide(x)[i], bits, 0, mode)
    ensures Wide(out) == GateVec(Wide(g), Wide(x), Kernels.Requant(bits, lo as int, hi as int, mode))
  {
    hide Requantize, Rescale;
    ghost var rq := Kernels.Requant(bits, lo as int, hi as int, mode);
    out := [];
    for i := 0 to Min(|g|, |x|)
      invariant |out| == i
      invariant forall j :: 0 <= j < i ==> out[j] as int == rq.Apply(g[j] as int * x[j] as int)
    {
      assert RequantFits(Wide(g)[i] * Wide(x)[i], bits, 0, mode);
      var v := RequantizeWord(g[i] * x[i], bits, 0, lo, hi, mode);
      out := out + [v];
    }
  }

  method AddWords(a: seq<I64>, b: seq<I64>) returns (out: seq<I64>)
    requires forall i :: 0 <= i < |a| && i < |b| ==> Field.FitsI64(Wide(a)[i] + Wide(b)[i])
    ensures Wide(out) == ResidualAdd(Wide(a), Wide(b))
  {
    out := [];
    for i := 0 to Min(|a|, |b|)
      invariant |out| == i
      invariant forall j :: 0 <= j < i ==> out[j] as int == a[j] as int + b[j] as int
    {
      assert Field.FitsI64(Wide(a)[i] + Wide(b)[i]);
      out := out + [a[i] + b[i]];
    }
  }

  // ------------------------------------------------------ normalization and attention

  /** The vector has fewer than 2^63 entries, as every slice does. */
  method LayerNormWords(x: seq<I64>, t: TableWords, bits: nat, lo: I64, hi: I64, mode: Rounding)
    returns (r: Option<seq<I64>>)
    requires |x| <= Field.I64_MAX
    requires LayerNormFits(Wide(x), t.Table(), Kernels.Requant(bits, lo as int, hi as int, mode))
    ensures LayerNorm(Wide(x), t.Table(), Kernels.Requant(bits, lo as int, hi as int, mode))
            == if r.Some? then Some(Wide(r.value)) else None
  {
    hide Requantize, RequantFits, RoundDivFits, SumsFit, DotFits, Sum, DotN, RoundDiv, LookupFits;
    ghost var rq := Kernels.Requant(bits, lo as int, hi as int, mode);
    if |x| == 0 {
      var none: seq<I64> := [];
      assert Wide(none) == [];
      return Some(none);
    }
    var n := |x| as I64;
    var sum := SumWords(x);
    var mean := RoundDivWord(sum, n);
    ghost var c := Centered(Wide(x), mean as int);
    var centered: seq<I64> := [];
    for i := 0 to |x|
      invariant |centered| == i && forall j :: 0 <= j < i ==> centered[j] as int == c[j]
    {
      assert Field.FitsI64(c[i]);
      centered := centered + [x[i] - mean];
    }
    assert Wide(centered) == c;
    var squares := DotWords(centered, centered);
    var variance := RoundDivWord(squares, n);
    var inv := EvalWord(t, variance);
    assert variance as int == Variance(Wide(x));
    if inv.None? { return None; }
    var out: seq<I64> := [];
    for i := 0 to |x|
      invariant |out| == i && forall j :: 0 <= j < i ==> out[j] as int == rq.Apply(c[j] * inv.value as int)
    {
      assert RequantFits(c[i] * inv.value as int, bits, 0, mode);
      assert Field.FitsI64(c[i] * inv.value as int) by { FitsOfRequant(c[i] * inv.value as int, bits, mode); }
      var v := RequantizeWord(centered[i] * inv.value, bits, 0, lo, hi, mode);
      out := out + [v];
    }
    assert Wide(out) == LayerNorm(Wide(x), t.Table(), rq).value;
    r := Some(out);
  }

  lemma FitsOfRequant(n: int, shift: nat, mode: Rounding)
    requires RequantFits(n, shift, 0, mode)
    ensures Field.FitsI64(n)
  {
    hide Rescale;
  }

  method MaxWord(xs: seq<I64>) returns (m: I64)
    requires |xs| > 0
    ensures m as int == Max(Wide(xs))
  {
    m := xs[0];
    for i := 1 to |xs|
      invariant m in xs && forall j :: 0 <= j < i ==> xs[j] <= m
    {
      if xs[i] > m { m := xs[i]; }
    }
    MaxIs(xs, m);
  }

  lemma MaxIs(xs: seq<I64>, m: I64)
    requires m in xs && forall j :: 0 <= j < |xs| ==> xs[j] <= m
    ensures m as int == Max(Wide(xs))
  {
    var j :| 0 <= j < |xs| && xs[j] == m;
    var k :| 0 <= k < |xs| && Wide(xs)[k] == Max(Wide(xs));
    assert Wide(xs)[j] == m as int && xs[k] <= m;
  }

  /** Every exponential, or None at the first score outside the table; and their running sum. */
  method ExpWords(row: seq<I64>, t: TableWords, one: I64) returns (exps: Option<seq<I64>>, sum: I64)
    requires |row| > 0 && SoftmaxFits(Wide(row), t.Table(), one as int)
    ensures EvalAll(t.Table(), Shifted(Wide(row))) == if exps.Some? then Some(Wide(exps.value)) else None
    ensures exps.Some? ==> sum as int == Sum(Wide(exps.value))
  {
    hide LookupFits, Sum, EvalAll;
    var m := MaxWord(row);
    ghost var s := Shifted(Wide(row));
    var found: seq<I64> := [];
    sum := 0;
    assert EvalAll(t.Table(), s[..0]) == Some(Wide(found)) && Sum(Wide(found)) == 0 by { EmptyExps(t.Table(), s); }
    for i := 0 to |row|
      invariant |found| == i && EvalAll(t.Table(), s[..i]) == Some(Wide(found)) && sum as int == Sum(Wide(found))
    {
      assert Field.FitsI64(s[i]) && s[i] == row[i] as int - m as int;
      var e := EvalWord(t, row[i] - m);
      if e.None? {
        if EvalAll(t.Table(), s).Some? { EvalAllAt(t.Table(), s, i); }
        return None, 0;
      }
      EvalAllSnoc(t.Table(), s, i);
      SumSnoc(Wide(found), e.value as int);
      WideSnoc(found, e.value);
      assert Field.FitsI64(Sum(EvalAll(t.Table(), s[..i + 1]).value));
      sum := sum + e.value;
      found := found + [e.value];
    }
    assert s[..|row|] == s;
    exps := Some(found);
  }

  lemma EmptyExps(t: ActivationTable, s: seq<int>)
    ensures EvalAll(t, s[..0]) == Some([]) && Sum([]) == 0
  {
  }

  method SoftmaxWords(row: seq<I64>, t: TableWords, one: I64) returns (r: Option<seq<I64>>)
    requires SoftmaxFits(Wide(row), t.Table(), one as int)
    ensures Kernels.Softmax(Wide(row), t.Table(), one as int) == if r.Some? then Some(Wide(r.value)) else None
  {
    hide Sum, EvalAll, TruncDiv, Shifted, LookupFits;
    var out: seq<I64> := [];
    if |row| == 0 {
      assert Wide(out) == [];
      return Some(out);
    }
    var exps, sum := ExpWords(row, t, one);
    if exps.None? || sum == 0 { return None; }
    var e := exps.value;
    for i := 0 to |e|
      invariant |out| == i && forall j :: 0 <= j < i ==> out[j] as int == TruncDiv(e[j] as int * one as int, sum as int)
    {
      assert Field.FitsI64(Wide(e)[i] * one as int) && Field.FitsI64(TruncDiv(Wide(e)[i] * one as int, sum as int));
      var p := DivWord(e[i] * one, sum);
      out := out + [p];
    }
    assert Wide(out) == Probs(Wide(e), one as int, sum as int);
    r := Some(out);
  }

  method SoftmaxRowsWords(scores: seq<I64>, rowLen: nat, t: TableWords, one: I64) returns (r: Option<seq<I64>>)
    requires rowLen > 0 ==> SoftmaxRowsFit(Wide(scores), rowLen, t.Table(), one as int)
    ensures SoftmaxRows(Wide(scores), rowLen, t.Table(), one as int) == if r.Some? then Some(Wide(r.value)) else None
  {
    hide Kernels.Softmax, SoftmaxFits;
    if rowLen == 0 || |scores| % rowLen != 0 { return None; }
    var out, rest: seq<I64> := [], scores;
    assert Wide(out) == [];
    while |rest| > 0
      invariant SoftmaxRowsFit(Wide(rest), rowLen, t.Table(), one as int)
      invariant SoftmaxChunks(Wide(out), Wide(rest), rowLen, t.Table(), one as int)
             == SoftmaxChunks([], Wide(scores), rowLen, t.Table(), one as int)
      decreases |rest|
    {
      var n := Min(rowLen, |rest|);
      assert Wide(rest)[..n] == Wide(rest[..n]) && Wide(rest)[n..] == Wide(rest[n..]);
      var chunk := SoftmaxWords(rest[..n], t, one);
      if chunk.None? { return None; }
      assert Wide(out + chunk.value) == Wide(out) + Wide(chunk.value);
      out := out + chunk.value;
      rest := rest[n..];
    }
    r := Some(out);
  }

  method MatMulWords(a: seq<I64>, b: seq<I64>, rows: nat, inner: nat, cols: nat, transposeB: bool)
    returns (r: Option<seq<I64>>)
    requires |a| == rows * inner && |b| == cols * inner ==>
      MatMulFits(Wide(a), Wide(b), rows, inner, cols, transposeB)
    ensures MatMul(Wide(a), Wide(b), rows, inner, cols, transposeB) == if r.Some? then Some(Wide(r.value)) else None
  {
    hide MatMulEntry, DotFits, DotN, Flatten;
    if |a| != rows * inner || |b| != cols * inner { return None; }
    ghost var am := Rows(Wide(a), rows, inner);
    ghost var m := MatMulMat(am, Wide(b), inner, cols, transposeB);
    var out: seq<I64> := [];
    assert Wide(out) == Flatten(m[..0]) by { FlattenNone(m); }
    for i := 0 to rows
      invariant Wide(out) == Flatten(m[..i])
    {
      RowBounds(i, rows, inner);
      FlattenRows(Wide(a), rows, inner);
      FlattenRow(am, rows, inner, i);
      var start := i * inner;
      var row := a[start..start + inner];
      assert Wide(row) == am[i];
      var entries := MatMulRowWords(row, b, inner, cols, transposeB);
      FlattenPrefix(m, i);
      assert Wide(out + entries) == Wide(out) + Wide(entries);
      out := out + entries;
    }
    assert m[..rows] == m;
    r := Some(out);
  }

  lemma FlattenNone(m: Mat)
    ensures Flatten(m[..0]) == []
  {
  }

  method MatMulRowWords(row: seq<I64>, b: seq<I64>, inner: nat, cols: nat, transposeB: bool) returns (out: seq<I64>)
    requires |row| == inner && |b| == cols * inner
    requires forall j :: 0 <= j < cols ==> DotFits(Wide(row), MatMulCol(Wide(b), inner, cols, transposeB, j))
    ensures Wide(out) == MatMulRow(Wide(row), Wide(b), inner, cols, transposeB)
  {
    hide MatMulCol, DotN, DotFits;
    ghost var full := MatMulRow(Wide(row), Wide(b), inner, cols, transposeB);
    out := [];
    for j := 0 to cols
      invariant |out| == j && forall k :: 0 <= k < j ==> out[k] as int == full[k]
    {
      var column := ColumnWords(b, inner, cols, transposeB, j);
      var acc := DotWords(row, column);
      out := out + [acc];
    }
  }

  method ColumnWords(b: seq<I64>, inner: nat, cols: nat, transposeB: bool, j: nat) returns (column: seq<I64>)
    requires |b| == cols * inner && j < cols
    ensures Wide(column) == MatMulCol(Wide(b), inner, cols, transposeB, j)
  {
    column := [];
    for k := 0 to inner
      invariant |column| == k
      invariant forall i :: 0 <= i < k ==> column[i] as int == MatMulEntry(Wide(b), inner, cols, transposeB, j, i)
    {
      RowBounds(j, cols, inner);
      RowBounds(k, inner, cols);
      assert j * inner + k < cols * inner && k * cols + j < inner * cols;
      column := column + [if transposeB then b[j * inner + k] else b[k * cols + j]];
    }
  }
}
