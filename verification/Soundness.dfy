/**
 * What the audit of one linear proves: the exact reach of the range guard, and the
 * exact number of challenges that let a wrong accumulator through.
 */
module Soundness {
  import opened Arith
  import opened Field
  import opened Matrix
  import opened Kernels
  import opened FiniteSets
  import opened Primality
  import opened Freivalds

  predicate Int8(w: seq<int>) { AllIn(w, -128, 127) }

  /** Weights the guard was designed for, or a layer narrow enough for any int8 weight. */
  predicate GuardCovers(w: seq<int>, cols: nat) {
    AllIn(w, -127, 127) || cols <= 0x100_0000
  }

  // ------------------------------------------------------- the reach of the guard

  /** Past the guard, claim and truth lie less than p apart. */
  lemma GuardedGap(w: seq<int>, x: seq<int>, bias: int, z: int, cols: nat, a: int)
    requires |w| == cols && |x| == cols
    requires DimsWithinSoundnessMargin(cols) && AllIn(w, -a, a)
    requires a == 127 || (a == 128 && cols <= 0x100_0000)
    requires WithinOperandBound(x) && WithinOperandBound([bias]) && WithinOperandBound([z])
    ensures -P < z - (bias + DotN(w, x, cols)) < P
  {
    assert -OPERAND_BOUND <= [bias][0] <= OPERAND_BOUND && -OPERAND_BOUND <= [z][0] <= OPERAND_BOUND;
    DotNBound(w, x, cols, a, OPERAND_BOUND);
    MarginIsAWidthBound(cols);
    var n := cols * (a * OPERAND_BOUND);
    assert n + 2 * OPERAND_BOUND < P by {
      if a == 127 {
        assert n == 127 * cols * OPERAND_BOUND;
      } else {
        MulMono(cols, 0x100_0000, a * OPERAND_BOUND);
      }
    }
  }

  /** A guarded claim congruent to the truth in every coordinate is the truth. */
  lemma GuardGivesEquality(w: seq<int>, x: seq<int>, bias: seq<int>, out: seq<int>, rows: nat, cols: nat)
    requires |w| == rows * cols && |x| == cols && |bias| == rows && |out| == rows
    requires Int8(w) && GuardCovers(w, cols) && Guarded(cols, x, bias, out)
    ensures var e := Error(out, Linear(w, x, bias, rows, cols));
            forall i :: 0 <= i < rows ==> (Cong(e[i], 0, P) <==> e[i] == 0)
  {
    var exact := Linear(w, x, bias, rows, cols);
    var a := if AllIn(w, -127, 127) then 127 else 128;
    forall i | 0 <= i < rows ensures Cong(out[i] - exact[i], 0, P) <==> out[i] - exact[i] == 0 {
      RowBounds(i, rows, cols);
      assert AllIn(Row(w, i, cols), -a, a);
      GuardedGap(Row(w, i, cols), x, bias[i], out[i], cols, a);
      if Cong(out[i] - exact[i], 0, P) { CongClose(out[i] - exact[i], 0, P); }
    }
  }

  /** The challenge with a single 1. */
  function Unit(rows: nat, i: nat): (r: seq<Fp>)
    requires i < rows
    ensures |r| == rows
  {
    seq(rows, j => if j == i then 1 else 0)
  }

  lemma {:induction false} DotUnit(rows: nat, i: nat, e: seq<int>, n: nat)
    requires i < rows && n <= rows && |e| == rows
    ensures DotN(Unit(rows, i), e, n) == if i < n then e[i] else 0
  {
    if n != 0 { DotUnit(rows, i, e, n - 1); }
  }

  lemma ErrorZeroIff(out: seq<int>, exact: seq<int>)
    requires |out| == |exact|
    ensures out == exact <==> forall i :: 0 <= i < |out| ==> Error(out, exact)[i] == 0
  {
    if forall i :: 0 <= i < |out| ==> Error(out, exact)[i] == 0 {
      forall i | 0 <= i < |out| ensures out[i] == exact[i] {
        assert Error(out, exact)[i] == 0;
      }
    }
  }

  /** Accepted under every unit challenge, if and only if it is W·x + bias. */
  lemma UnitChallengesDecide(w: seq<int>, x: seq<int>, bias: seq<int>, out: seq<int>, rows: nat, cols: nat)
    requires |w| == rows * cols && |x| == cols && |bias| == rows && |out| == rows
    requires Int8(w) && GuardCovers(w, cols) && Guarded(cols, x, bias, out)
    ensures (forall i :: 0 <= i < rows ==>
               CheckLinearBiased(Reduced(VOf(Unit(rows, i), w, rows, cols)), x, bias, Unit(rows, i), out))
       <==> out == Linear(w, x, bias, rows, cols)
  {
    var e := Error(out, Linear(w, x, bias, rows, cols));
    GuardGivesEquality(w, x, bias, out, rows, cols);
    forall i | 0 <= i < rows
      ensures CheckLinearBiased(Reduced(VOf(Unit(rows, i), w, rows, cols)), x, bias, Unit(rows, i), out)
         <==> e[i] == 0
    {
      CheckMeansOrthogonal(w, x, bias, Unit(rows, i), out, rows, cols);
      DotUnit(rows, i, e, rows);
    }
    ErrorZeroIff(out, Linear(w, x, bias, rows, cols));
  }

  /** Partial sums of a guarded linear, and the biased result, fit an i64. */
  lemma AccumulatorsFit(w: seq<int>, x: seq<int>, bias: int, cols: nat, n: nat)
    requires |w| == cols && |x| == cols && n <= cols && Int8(w)
    requires DimsWithinSoundnessMargin(cols) && WithinOperandBound(x) && WithinOperandBound([bias])
    ensures FitsI64(DotN(w, x, n)) && FitsI64(bias + DotN(w, x, n))
  {
    assert -OPERAND_BOUND <= [bias][0] <= OPERAND_BOUND;
    MarginIsAWidthBound(cols);
    DotNBound(w, x, n, 128, OPERAND_BOUND);
    MulMono(n, cols, 128 * OPERAND_BOUND);
    MulMono(cols, 0x200_0000, 128 * OPERAND_BOUND);
  }

  /** No guarded int8 row of this width has a false claim congruent to the truth. */
  ghost predicate GuardIsExact(cols: nat) {
    forall w: seq<int>, x: seq<int>, bias: int, z: int ::
      (&& |w| == cols && |x| == cols && Int8(w) && Guarded(cols, x, [bias], [z])
       && Cong(z, bias + DotN(w, x, cols), P)) ==> z == bias + DotN(w, x, cols)
  }

  /** The row -128, ..., -128 and the input that drives it to -(p + 1). */
  function WrapInput(cols: nat): (x: seq<int>)
    requires cols > 0x100_0000
    ensures |x| == cols
  {
    seq(cols, i => if i < 0x100_0000 then OPERAND_BOUND else if i == 0x100_0000 then 0x100_0000 else 0)
  }

  function WrapWeight(cols: nat): (w: seq<int>)
    ensures |w| == cols
  {
    seq(cols, _ => -128)
  }

  lemma {:induction false} WrapDot(cols: nat, n: nat)
    requires cols > 0x100_0000 && n <= cols
    ensures DotN(WrapWeight(cols), WrapInput(cols), n)
         == if n <= 0x100_0000 then -128 * (n * OPERAND_BOUND) else -(P + 1)
  {
    if n != 0 {
      WrapDot(cols, n - 1);
      assert n * OPERAND_BOUND == (n - 1) * OPERAND_BOUND + OPERAND_BOUND;
    }
  }

  /**
   * Wider than 2^24 the margin test still passes up to 16909320 columns, but with
   * int8 weights of -128 the claim -1 stands in for the true -(p + 1): it passes the
   * guard, and every challenge accepts it.
   */
  lemma AliasedForgery(cols: nat, r: Fp)
    requires cols > 0x100_0000 && DimsWithinSoundnessMargin(cols)
    ensures |WrapWeight(cols)| == 1 * cols && Int8(WrapWeight(cols)) && Guarded(cols, WrapInput(cols), [0], [-1])
    ensures DotN(WrapWeight(cols), WrapInput(cols), cols) == -(P + 1)
    ensures Linear(WrapWeight(cols), WrapInput(cols), [0], 1, cols) != [-1]
    ensures CheckLinearBiased(Reduced(VOf([r], WrapWeight(cols), 1, cols)), WrapInput(cols), [0], [r], [-1])
  {
    var w, x := WrapWeight(cols), WrapInput(cols);
    WrapDot(cols, cols);
    assert Row(w, 0, cols) == w;
    assert Linear(w, x, [0], 1, cols)[0] == -(P + 1);
    CheckMeansOrthogonal(w, x, [0], [r], [-1], 1, cols);
    var e := Error([-1], Linear(w, x, [0], 1, cols));
    assert DotN([r], e, 0) == 0 && DotN([r], e, 1) == r * P;
    CongShift(0, r, P);
  }

  /** Among widths the margin test passes, the guard is exact for int8 iff cols <= 2^24. */
  lemma GuardExactness(cols: nat)
    requires DimsWithinSoundnessMargin(cols)
    ensures GuardIsExact(cols) <==> cols <= 0x100_0000
  {
    if cols <= 0x100_0000 {
      forall w: seq<int>, x: seq<int>, bias: int, z: int |
        && |w| == cols && |x| == cols && Int8(w) && Guarded(cols, x, [bias], [z])
        && Cong(z, bias + DotN(w, x, cols), P)
        ensures z == bias + DotN(w, x, cols)
      {
        GuardedGap(w, x, bias, z, cols, 128);
        CongClose(z, bias + DotN(w, x, cols), P);
      }
    } else {
      AliasedForgery(cols, 0);
      var w, x := WrapWeight(cols), WrapInput(cols);
      CongShift(-1, -1, P);
      assert Cong(-1, 0 + DotN(w, x, cols), P);
    }
  }

  // --------------------------------------------------------- the escape count

  /** Every challenge vector of length `n`: p^n of them. */
  ghost function ChallengeSpace(n: nat): set<seq<int>> {
    if n == 0 then {[]}
    else
      var shorter := ChallengeSpace(n - 1);
      set a: int, r: seq<int> | 0 <= a < P && r in shorter :: [a] + r
  }

  lemma {:induction false} InChallengeSpace(n: nat, r: seq<int>)
    ensures r in ChallengeSpace(n) <==> |r| == n && AllFp(r)
  {
    if n != 0 {
      if r in ChallengeSpace(n) {
        var a: int, s: seq<int> :| 0 <= a < P && s in ChallengeSpace(n - 1) && r == [a] + s;
        InChallengeSpace(n - 1, s);
      }
      if |r| == n && AllFp(r) {
        InChallengeSpace(n - 1, r[1..]);
        assert r == [r[0]] + r[1..];
      }
    } else if |r| == 0 {
      assert r == [];
    }
  }

  /** Fewer coordinates: drop coordinate `k`; put one back. */
  function DropAt(r: seq<int>, k: nat): seq<int> {
    if k < |r| then r[..k] + r[k + 1..] else r
  }

  function InsertAt(s: seq<int>, k: nat, u: int): seq<int> {
    if k <= |s| then s[..k] + [u] + s[k..] else s
  }

  lemma {:induction false} DotNUpdate(a: seq<int>, b: seq<int>, i: nat, v: int, n: nat)
    requires i < |a| && n <= |a| && n <= |b|
    ensures DotN(a[i := v], b, n) == DotN(a, b, n) + if i < n then (v - a[i]) * b[i] else 0
  {
    if n != 0 {
      DotNUpdate(a, b, i, v, n - 1);
      if i == n - 1 {
        assert v * b[i] == a[i] * b[i] + (v - a[i]) * b[i];
      }
    }
  }

  lemma InsertDot(s: seq<int>, k: nat, u: int, d: seq<int>)
    requires k < |d| == |s| + 1
    ensures Dot(InsertAt(s, k, u), d) == Dot(InsertAt(s, k, 0), d) + u * d[k]
  {
    assert InsertAt(s, k, u) == InsertAt(s, k, 0)[k := u];
    DotNUpdate(InsertAt(s, k, 0), d, k, u, |d|);
  }

  /** The coordinate that makes the rest orthogonal to `d`, given an inverse of d[k]. */
  function Solve(s: seq<int>, k: nat, d: seq<int>, inv: int): (u: Fp)
  {
    (-Dot(InsertAt(s, k, 0), d) * inv) % P
  }

  lemma SolveSolves(c: int, dk: int, inv: int, u: int)
    requires Cong(dk * inv, 1, P) && 0 <= u < P
    ensures Cong(c + u * dk, 0, P) <==> u == (-c * inv) % P
  {
    var s := (-c * inv) % P;
    CongMod(-c * inv, P);
    // s solves the equation ...
    CongMul(s, -c * inv, dk, dk, P);
    assert (-c * inv) * dk == -c * (dk * inv);
    CongMul(-c, -c, dk * inv, 1, P);
    CongAdd(c, c, s * dk, -c, P);
    assert Cong(c + s * dk, 0, P);
    // ... and any two solutions agree.
    if Cong(c + u * dk, 0, P) {
      CongAdd(c + u * dk, 0, c + s * dk, 0, P);
      assert (c + u * dk) - (c + s * dk) == (u - s) * dk;
      CongMul((u - s) * dk, 0, inv, inv, P);
      assert ((u - s) * dk) * inv == (u - s) * (dk * inv);
      CongMul(u - s, u - s, dk * inv, 1, P);
      CongClose(u - s, 0, P);
    }
  }

  /** With every other coordinate fixed, exactly one value of r[k] is orthogonal to `d`. */
  lemma OneCoordinate(s: seq<int>, k: nat, d: seq<int>, inv: int, u: int)
    requires k < |d| == |s| + 1 && Cong(d[k] * inv, 1, P) && 0 <= u < P
    ensures Cong(Dot(InsertAt(s, k, u), d), 0, P) <==> u == Solve(s, k, d, inv)
  {
    InsertDot(s, k, u, d);
    SolveSolves(Dot(InsertAt(s, k, 0), d), d[k], inv, u);
  }

  /** The challenges of the right length orthogonal to `d` modulo p. */
  ghost function Orthogonal(d: seq<int>): set<seq<int>> {
    set r: seq<int> | r in ChallengeSpace(|d|) && Cong(Dot(r, d), 0, P)
  }

  lemma InsertDrop(r: seq<int>, k: nat)
    requires k < |r|
    ensures |DropAt(r, k)| == |r| - 1 && InsertAt(DropAt(r, k), k, r[k]) == r
    ensures AllFp(r) ==> AllFp(DropAt(r, k))
  {
  }

  lemma DropInsert(s: seq<int>, k: nat, u: Fp)
    requires k <= |s|
    ensures |InsertAt(s, k, u)| == |s| + 1 && DropAt(InsertAt(s, k, u), k) == s
    ensures AllFp(s) ==> AllFp(InsertAt(s, k, u))
  {
  }

  lemma DropOrthogonal(r: seq<int>, k: nat, d: seq<int>, inv: int)
    requires k < |d| && Cong(d[k] * inv, 1, P) && r in Orthogonal(d)
    ensures var s := DropAt(r, k); s in ChallengeSpace(|d| - 1) && InsertAt(s, k, Solve(s, k, d, inv)) == r
  {
    InChallengeSpace(|d|, r);
    InsertDrop(r, k);
    InChallengeSpace(|d| - 1, DropAt(r, k));
    OneCoordinate(DropAt(r, k), k, d, inv, r[k]);
  }

  lemma InsertOrthogonal(s: seq<int>, k: nat, d: seq<int>, inv: int)
    requires k < |d| && Cong(d[k] * inv, 1, P) && s in ChallengeSpace(|d| - 1)
    ensures var r := InsertAt(s, k, Solve(s, k, d, inv)); r in Orthogonal(d) && DropAt(r, k) == s
  {
    InChallengeSpace(|d| - 1, s);
    var u := Solve(s, k, d, inv);
    DropInsert(s, k, u);
    InChallengeSpace(|d|, InsertAt(s, k, u));
    OneCoordinate(s, k, d, inv, u);
  }

  /** A nonzero error is orthogonal to as many challenges as there are one coordinate shorter. */
  lemma OrthogonalSize(d: seq<int>, k: nat)
    requires k < |d| && !Cong(d[k], 0, P)
    ensures |Orthogonal(d)| == |ChallengeSpace(|d| - 1)|
  {
    AuditModulusIsPrime();
    var inv := Inverse(P, d[k]);
    var drop := (r: seq<int>) => DropAt(r, k);
    var put := (s: seq<int>) => InsertAt(s, k, Solve(s, k, d, inv));
    forall r | r in Orthogonal(d) ensures drop(r) in ChallengeSpace(|d| - 1) && put(drop(r)) == r {
      DropOrthogonal(r, k, d, inv);
    }
    forall s | s in ChallengeSpace(|d| - 1) ensures put(s) in Orthogonal(d) && drop(put(s)) == s {
      InsertOrthogonal(s, k, d, inv);
    }
    BijectionSize(Orthogonal(d), ChallengeSpace(|d| - 1), drop, put);
  }

  /** `p^n` challenges in all. */
  lemma {:induction false} ChallengeSpaceSize(n: nat)
    ensures |ChallengeSpace(n)| == Pow(P, n)
  {
    if n != 0 {
      ChallengeSpaceSize(n - 1);
      PrependSize(P, ChallengeSpace(n - 1));
    }
  }

  ghost function Prepend(m: nat, b: set<seq<int>>): set<seq<int>> {
    set a: int, r: seq<int> | 0 <= a < m && r in b :: [a] + r
  }

  /** The vectors that start with `a`. */
  ghost function Headed(a: int, b: set<seq<int>>): set<seq<int>> {
    set r: seq<int> | r in b :: [a] + r
  }

  lemma HeadedSize(a: int, b: set<seq<int>>)
    ensures |Headed(a, b)| == |b|
  {
    BijectionSize(b, Headed(a, b), r => [a] + r, r => if |r| > 0 then r[1..] else r);
  }

  lemma {:induction false} PrependSize(m: nat, b: set<seq<int>>)
    ensures |Prepend(m, b)| == m * |b|
  {
    if m == 0 {
      assert Prepend(0, b) == {};
    } else {
      hide Prepend, Headed;
      PrependSize(m - 1, b);
      SplitTop(m, b);
      HeadedSize(m - 1, b);
      OneMore(m, |b|);
    }
  }

  lemma OneMore(m: nat, count: nat)
    ensures m * count == (m - 1) * count + count
  {
  }

  lemma SplitTop(m: nat, b: set<seq<int>>)
    requires m > 0
    ensures Prepend(m, b) == Prepend(m - 1, b) + Headed(m - 1, b)
    ensures Prepend(m - 1, b) !! Headed(m - 1, b)
  {
    forall y | y in Prepend(m, b) ensures y in Prepend(m - 1, b) + Headed(m - 1, b) {
      var a: int, r: seq<int> :| 0 <= a < m && r in b && y == [a] + r;
      if a < m - 1 { assert y in Prepend(m - 1, b); }
    }
    forall y | y in Headed(m - 1, b) ensures y in Prepend(m, b) && y !in Prepend(m - 1, b) {
      var r: seq<int> :| r in b && y == [m - 1] + r;
      assert 0 <= m - 1 < m;
      assert y[0] == m - 1;
    }
    forall y | y in Prepend(m - 1, b) ensures y in Prepend(m, b) {
      var a: int, r: seq<int> :| 0 <= a < m - 1 && r in b && y == [a] + r;
    }
  }

  /** `r` is a challenge under which the verifier accepts `out`. */
  ghost predicate Accepts(r: seq<int>, w: seq<int>, x: seq<int>, bias: seq<int>, out: seq<int>, rows: nat, cols: nat)
    requires |w| == rows * cols
  {
    |r| == rows && AllFp(r) && CheckLinearBiased(Reduced(VOf(r, w, rows, cols)), x, bias, r, out)
  }

  /**
   * At a wrong coordinate of a guarded accumulator, with the other challenge coordinates
   * fixed, the verifier accepts for exactly one value of that coordinate.
   */
  lemma OneChallenge(w: seq<int>, x: seq<int>, bias: seq<int>, out: seq<int>, rows: nat, cols: nat, k: nat, s: seq<Fp>)
    returns (u: Fp)
    requires |w| == rows * cols && |x| == cols && |bias| == rows && |out| == rows
    requires Int8(w) && GuardCovers(w, cols) && Guarded(cols, x, bias, out)
    requires k < rows == |s| + 1 && out[k] != Linear(w, x, bias, rows, cols)[k]
    ensures forall v: Fp :: Accepts(InsertAt(s, k, v), w, x, bias, out, rows, cols) <==> v == u
  {
    var e := Error(out, Linear(w, x, bias, rows, cols));
    GuardGivesEquality(w, x, bias, out, rows, cols);
    AuditModulusIsPrime();
    var inv := Inverse(P, e[k]);
    u := Solve(s, k, e, inv);
    forall v: Fp ensures Accepts(InsertAt(s, k, v), w, x, bias, out, rows, cols) <==> v == u {
      DropInsert(s, k, v);
      CheckMeansOrthogonal(w, x, bias, InsertAt(s, k, v), out, rows, cols);
      OneCoordinate(s, k, e, inv, v);
    }
  }

  /**
   * Of the p^rows challenges, exactly p^(rows-1) accept a guarded accumulator that is
   * wrong; all of them accept a guarded accumulator that is right.
   */
  lemma EscapeCount(w: seq<int>, x: seq<int>, bias: seq<int>, out: seq<int>, rows: nat, cols: nat)
    requires |w| == rows * cols && |x| == cols && |bias| == rows && |out| == rows
    requires Int8(w) && GuardCovers(w, cols) && Guarded(cols, x, bias, out)
    ensures |ChallengeSpace(rows)| == Pow(P, rows)
    ensures var accepting := set r: seq<int> | r in ChallengeSpace(rows) && Accepts(r, w, x, bias, out, rows, cols);
            if out == Linear(w, x, bias, rows, cols) then accepting == ChallengeSpace(rows)
            else rows >= 1 && |accepting| == Pow(P, rows - 1)
  {
    var exact := Linear(w, x, bias, rows, cols);
    var e := Error(out, exact);
    var accepting := set r: seq<int> | r in ChallengeSpace(rows) && Accepts(r, w, x, bias, out, rows, cols);
    ChallengeSpaceSize(rows);
    assert accepting == Orthogonal(e) by {
      forall r: seq<int> | r in ChallengeSpace(rows)
        ensures Accepts(r, w, x, bias, out, rows, cols) <==> Cong(Dot(r, e), 0, P)
      {
        InChallengeSpace(rows, r);
        CheckMeansOrthogonal(w, x, bias, r, out, rows, cols);
      }
    }
    if out == exact {
      forall r: seq<int> | r in ChallengeSpace(rows) ensures Cong(Dot(r, e), 0, P) {
        InChallengeSpace(rows, r);
        ErrorIsZero(r, out, rows);
      }
    } else {
      var k :| 0 <= k < rows && out[k] != exact[k];
      GuardGivesEquality(w, x, bias, out, rows, cols);
      OrthogonalSize(e, k);
      ChallengeSpaceSize(rows - 1);
    }
  }
}
