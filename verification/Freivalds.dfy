/**
 * crates/pwm-core/src/freivalds.rs: auditing `out = W·x + bias` with one inner
 * product modulo p, and the range guard that turns congruence into equality.
 */
module Freivalds {
  import opened Arith
  import opened Field
  import opened Matrix
  import opened Kernels
  import opened FiniteSets
  import opened Primality

  const OPERAND_BOUND: int := P_HALF

  predicate WithinOperandBound(vals: seq<int>) {
    AllIn(vals, -OPERAND_BOUND, OPERAND_BOUND)
  }

  /** The bound admits exactly the values an M31 residue can carry. */
  lemma WithinIsEncodable(vals: seq<int>)
    ensures WithinOperandBound(vals) <==> forall i :: 0 <= i < |vals| ==> TryEncode(vals[i]).Some?
  {
  }

  predicate DimsWithinSoundnessMargin(cols: nat) {
    127 * cols * OPERAND_BOUND + 2 * OPERAND_BOUND < P
  }

  /** The margin test, solved for the width. */
  lemma MarginIsAWidthBound(cols: nat)
    ensures DimsWithinSoundnessMargin(cols) <==> 127 * cols <= 0x8000_0000
  {
    assert P == 2 * (OPERAND_BOUND * (OPERAND_BOUND + 2)) + 1;
  }

  /** The guard in front of every audited linear. */
  predicate Guarded(cols: nat, x: seq<int>, bias: seq<int>, out: seq<int>) {
    && DimsWithinSoundnessMargin(cols)
    && WithinOperandBound(x) && WithinOperandBound(bias) && WithinOperandBound(out)
  }

  // ---------------------------------------------------------------- the checks

  predicate AllFp(v: seq<int>) {
    forall i :: 0 <= i < |v| ==> 0 <= v[i] < P
  }

  predicate AllI64(v: seq<int>) {
    forall i :: 0 <= i < |v| ==> FitsI64(v[i])
  }

  /** `sum coeffs[i]·vals[i]` in the audit field, over the zipped length. */
  method DotFpI64(coeffs: seq<Fp>, vals: seq<int>) returns (acc: Fp)
    requires AllI64(vals)
    ensures acc == Dot(coeffs, vals) % P
  {
    hide Add, Mul, FromI64;
    acc := 0;
    var n := Min(|coeffs|, |vals|);
    for i := 0 to n
      invariant acc == DotN(coeffs, vals, i) % P
    {
      FieldStep(acc, DotN(coeffs, vals, i), coeffs[i], vals[i]);
      acc := Add(acc, Mul(coeffs[i], FromI64(vals[i])));
    }
  }

  /** One accumulation step commutes with reduction modulo p. */
  lemma FieldStep(acc: Fp, total: int, c: Fp, z: int)
    requires acc == total % P && FitsI64(z)
    ensures Add(acc, Mul(c, FromI64(z))) == (total + c * z) % P
  {
    CongMod(z, P);
    CongMul(c, c, FromI64(z), z, P);
    CongMod(c * FromI64(z), P);
    CongMod(total, P);
    CongAdd(acc, total, Mul(c, FromI64(z)), c * z, P);
  }

  function AddScaled(a: seq<int>, k: int, b: seq<int>): (s: seq<int>)
    requires |a| == |b|
    ensures |s| == |a|
  {
    seq(|a|, c requires 0 <= c < |a| => a[c] + k * b[c])
  }

  /** The integer vector `r^T W`, one row of `W` at a time. */
  function TransposeProduct(r: seq<int>, w: seq<int>, n: nat, rows: nat, cols: nat): (v: seq<int>)
    requires n <= |r| && n <= rows && |w| == rows * cols
    ensures |v| == cols
  {
    if n == 0 then Zeros(cols)
    else
      RowBounds(n - 1, rows, cols);
      AddScaled(TransposeProduct(r, w, n - 1, rows, cols), r[n - 1], Row(w, n - 1, cols))
  }

  function VOf(r: seq<int>, w: seq<int>, rows: nat, cols: nat): (v: seq<int>)
    requires |r| == rows && |w| == rows * cols
    ensures |v| == cols
  {
    TransposeProduct(r, w, rows, rows, cols)
  }

  /** `v` reduced entry by entry. */
  function Reduced(v: seq<int>): (u: seq<Fp>)
    ensures |u| == |v| && forall i :: 0 <= i < |v| ==> u[i] == v[i] % P
  {
    seq(|v|, i requires 0 <= i < |v| => v[i] % P)
  }

  method PrecomputeV(r: seq<Fp>, weight: seq<int>, rows: nat, cols: nat) returns (v: seq<Fp>)
    requires |r| == rows && |weight| == rows * cols && AllIn(weight, -128, 127)
    ensures v == Reduced(VOf(r, weight, rows, cols))
  {
    v := seq(cols, _ => 0);
    for row := 0 to rows
      invariant v == Reduced(TransposeProduct(r, weight, row, rows, cols))
    {
      RowBounds(row, rows, cols);
      var base := row * cols;
      v := AddScaledRow(v, r[row], weight[base..base + cols], TransposeProduct(r, weight, row, rows, cols));
    }
  }

  /** The inner loop: fold one weight row, scaled by its challenge coordinate, into `v`. */
  method AddScaledRow(v0: seq<Fp>, ri: Fp, wrow: seq<int>, ghost exact: seq<int>) returns (v: seq<Fp>)
    requires |wrow| == |v0| == |exact| && v0 == Reduced(exact) && AllIn(wrow, -128, 127)
    ensures v == Reduced(AddScaled(exact, ri, wrow))
  {
    v := v0;
    for col := 0 to |v0|
      invariant |v| == |v0|
      invariant forall c :: 0 <= c < col ==> v[c] == (exact[c] + ri * wrow[c]) % P
      invariant forall c :: col <= c < |v0| ==> v[c] == v0[c]
    {
      FieldStep(v[col], exact[col], ri, wrow[col]);
      v := v[col := Add(v[col], Mul(ri, FromI64(wrow[col])))];
    }
  }

  /** `check_linear_biased`: the guard, then `v·x + r·bias = r·out` modulo p. */
  predicate CheckLinearBiased(v: seq<Fp>, x: seq<int>, bias: seq<int>, r: seq<Fp>, out: seq<int>) {
    && Guarded(|x|, x, bias, out)
    && Cong(Dot(v, x) + Dot(r, bias), Dot(r, out), P)
  }

  method CheckLinear(v: seq<Fp>, x: seq<int>, bias: seq<int>, r: seq<Fp>, out: seq<int>) returns (ok: bool)
    ensures ok == CheckLinearBiased(v, x, bias, r, out)
  {
    if !DimsWithinSoundnessMargin(|x|) || !WithinOperandBound(x) || !WithinOperandBound(bias)
       || !WithinOperandBound(out) {
      return false;
    }
    var vx := DotFpI64(v, x);
    var rb := DotFpI64(r, bias);
    var rhs := DotFpI64(r, out);
    CongMod(Dot(v, x), P);
    CongMod(Dot(r, bias), P);
    CongAdd(vx, Dot(v, x), rb, Dot(r, bias), P);
    ok := Add(vx, rb) == rhs;
  }

  // ------------------------------------------------------------ the exchange

  /** `(r^T W)·x = r·(W x)`: summing by columns equals summing by rows. */
  lemma {:induction false} SumExchange(r: seq<int>, w: seq<int>, x: seq<int>, wx: seq<int>, n: nat, rows: nat,
                                       cols: nat)
    requires n <= |r| && n <= rows && |w| == rows * cols && |x| == cols && |wx| == rows
    requires forall i :: 0 <= i < rows ==> i * cols + cols <= |w| && wx[i] == DotN(Row(w, i, cols), x, cols)
    ensures DotN(TransposeProduct(r, w, n, rows, cols), x, cols) == DotN(r, wx, n)
  {
    if n == 0 {
      DotNZero(Zeros(cols), x, cols);
    } else {
      SumExchange(r, w, x, wx, n - 1, rows, cols);
      RowBounds(n - 1, rows, cols);
      DotNAddScaled(TransposeProduct(r, w, n - 1, rows, cols), Row(w, n - 1, cols),
                    TransposeProduct(r, w, n, rows, cols), r[n - 1], x, cols);
    }
  }

  /** `v·x + r·bias = r·(W x + bias)` over the integers. */
  lemma HonestIdentity(r: seq<int>, w: seq<int>, x: seq<int>, bias: seq<int>, rows: nat, cols: nat)
    requires |r| == rows && |w| == rows * cols && |x| == cols && |bias| == rows
    ensures DotN(VOf(r, w, rows, cols), x, cols) + DotN(r, bias, rows) == DotN(r, Linear(w, x, bias, rows, cols), rows)
  {
    var out := Linear(w, x, bias, rows, cols);
    var wx := seq(rows, i requires 0 <= i < rows => out[i] - bias[i]);
    SumExchange(r, w, x, wx, rows, rows, cols);
    DotNSumRight(r, bias, wx, out, rows);
  }

  /** The difference a challenge has to expose. */
  function Error(out: seq<int>, exact: seq<int>): (e: seq<int>)
    requires |out| == |exact|
    ensures |e| == |out|
  {
    seq(|out|, i requires 0 <= i < |out| => out[i] - exact[i])
  }

  /** Past the guard, the check accepts exactly when `r` is orthogonal to the error modulo p. */
  lemma CheckMeansOrthogonal(w: seq<int>, x: seq<int>, bias: seq<int>, r: seq<Fp>, out: seq<int>, rows: nat, cols: nat)
    requires |r| == rows && |w| == rows * cols && |x| == cols && |bias| == rows && |out| == rows
    requires Guarded(cols, x, bias, out)
    ensures CheckLinearBiased(Reduced(VOf(r, w, rows, cols)), x, bias, r, out)
       <==> Cong(Dot(r, Error(out, Linear(w, x, bias, rows, cols))), 0, P)
  {
    var v := VOf(r, w, rows, cols);
    var exact := Linear(w, x, bias, rows, cols);
    var e := Error(out, exact);
    assert forall i :: 0 <= i < cols ==> Cong(Reduced(v)[i], v[i], P) by {
      forall i | 0 <= i < cols ensures Cong(Reduced(v)[i], v[i], P) { CongMod(v[i], P); }
    }
    DotNCongruent(Reduced(v), v, x, cols, P);
    var lhs := Dot(Reduced(v), x) + Dot(r, bias);
    CongAdd(Dot(Reduced(v), x), Dot(v, x), Dot(r, bias), Dot(r, bias), P);
    HonestIdentity(r, w, x, bias, rows, cols);
    assert Cong(lhs, Dot(r, exact), P);
    DotNSumRight(r, exact, e, out, rows);
    assert Dot(r, out) == Dot(r, exact) + Dot(r, e);
    OrthogonalIff(lhs, Dot(r, exact), Dot(r, e));
  }

  lemma OrthogonalIff(lhs: int, a: int, e: int)
    requires Cong(lhs, a, P)
    ensures Cong(lhs, a + e, P) <==> Cong(e, 0, P)
  {
    if Cong(lhs, a + e, P) {
      CongAdd(a + e, a, a, a, P);
    }
    if Cong(e, 0, P) {
      CongAdd(a, a, e, 0, P);
    }
  }

  /** The honest accumulator passes the check under every challenge, if it is in range. */
  lemma HonestAccepted(w: seq<int>, x: seq<int>, bias: seq<int>, r: seq<Fp>, rows: nat, cols: nat)
    requires |r| == rows && |w| == rows * cols && |x| == cols && |bias| == rows
    ensures CheckLinearBiased(Reduced(VOf(r, w, rows, cols)), x, bias, r, Linear(w, x, bias, rows, cols))
       <==> Guarded(cols, x, bias, Linear(w, x, bias, rows, cols))
  {
    var out := Linear(w, x, bias, rows, cols);
    if Guarded(cols, x, bias, out) {
      CheckMeansOrthogonal(w, x, bias, r, out, rows, cols);
      ErrorIsZero(r, out, rows);
    }
  }

  lemma ErrorIsZero(r: seq<int>, out: seq<int>, rows: nat)
    requires |r| == rows && |out| == rows
    ensures Dot(r, Error(out, out)) == 0
  {
    DotNSumRight(r, out, Error(out, out), out, rows);
  }
}
