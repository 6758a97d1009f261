/**
 * crates/pwm-core/src/fixed_point.rs: bounded integers and the requantization that
 * prover and verifier both recompute.
 */
module FixedPoint {
  import opened Wrappers
  import opened Arith
  import Field

  // ------------------------------------------------------------ bounded integers

  datatype BoundedInt = BoundedInt(value: int, lo: int, hi: int) {
    /** The invariant every constructor enforces. */
    predicate Valid() {
      lo <= value <= hi && Field.InSignedRange(lo) && Field.InSignedRange(hi)
    }
  }

  datatype BoundError = InvertedBounds | ValueOutOfBounds | BoundsEscapeSignedRange

  function NewBounded(value: int, lo: int, hi: int): (r: Result<BoundedInt, BoundError>)
    ensures r.Ok? <==> BoundedInt(value, lo, hi).Valid()
    ensures r.Ok? ==> r.value == BoundedInt(value, lo, hi)
  {
    if lo > hi then Err(InvertedBounds)
    else if value < lo || value > hi then Err(ValueOutOfBounds)
    else if !Field.InSignedRange(lo) || !Field.InSignedRange(hi) then Err(BoundsEscapeSignedRange)
    else Ok(BoundedInt(value, lo, hi))
  }

  function Exact(value: int): Result<BoundedInt, BoundError> {
    NewBounded(value, value, value)
  }

  // -------------------------------------------------------------- requantization

  datatype Rounding = NearestTiesToEven | TruncateTowardZero

  function FromDiscriminant(d: nat): Option<Rounding> {
    if d == 0 then Some(NearestTiesToEven)
    else if d == 1 then Some(TruncateTowardZero)
    else None
  }

  const MAX_SHIFT: nat := 62

  predicate ValidShift(r: nat) { r <= MAX_SHIFT }

  datatype QuotRem = QuotRem(q: int, rem: int)

  /** Euclidean split: the divisor is positive, so the quotient floors. */
  function SplitPow2(n: int, r: nat): (s: QuotRem)
    ensures n == s.q * Pow2(r) + s.rem && 0 <= s.rem < Pow2(r)
  {
    QuotRem(n / Pow2(r), n % Pow2(r))
  }

  function Round(split: QuotRem, r: nat, n: int, mode: Rounding): int
    requires split.rem != 0 ==> r >= 1
  {
    if split.rem == 0 then split.q
    else
      match mode
      case NearestTiesToEven =>
        var half := Pow2(r - 1);
        if split.rem < half then split.q
        else if split.rem > half then split.q + 1
        else split.q + split.q % 2
      case TruncateTowardZero =>
        if n >= 0 then split.q else split.q + 1
  }

  function Clamp(x: int, lo: int, hi: int): int {
    if x < lo then lo else if x > hi then hi else x
  }

  /** The rescale of `n` by 2^-r before zero point and clamp. */
  function Rescale(n: int, r: nat, mode: Rounding): int {
    Round(SplitPow2(n, r), r, n, mode)
  }

  function Requantize(n: int, r: nat, zeroPoint: int, lo: int, hi: int, mode: Rounding): int {
    Clamp(Rescale(n, r, mode) + zeroPoint, lo, hi)
  }

  // ----------------------------------------------------- what rescaling computes

  /** `q` is the integer nearest to `n / d`, the even one on a tie. */
  ghost predicate IsNearestEven(q: int, n: int, d: int) {
    var e := q * d - n;
    -d <= 2 * e <= d && (2 * e == d || 2 * e == -d ==> q % 2 == 0)
  }

  /** `q` is `n / d` with its fraction dropped: same sign as `n`, never larger in magnitude. */
  ghost predicate IsTruncated(q: int, n: int, d: int) {
    var m := q * d;
    if n >= 0 then 0 <= q && m <= n < m + d
    else q <= 0 && m - d < n <= m
  }

  lemma NearestEvenUnique(p: int, q: int, n: int, d: int)
    requires d > 0 && IsNearestEven(p, n, d) && IsNearestEven(q, n, d)
    ensures p == q
  {
    MultiplesApart(p, q, d);
    MultiplesApart(q, p, d);
  }

  lemma TruncatedUnique(p: int, q: int, n: int, d: int)
    requires d > 0 && IsTruncated(p, n, d) && IsTruncated(q, n, d)
    ensures p == q
  {
    MultiplesApart(p, q, d);
    MultiplesApart(q, p, d);
  }

  lemma NearestFromSplit(q: int, rem: int, n: int, d: int, half: int, res: int)
    requires n == q * d + rem && 0 <= rem < d && (rem != 0 ==> d == 2 * half)
    requires res == if rem == 0 || rem < half then q else if rem > half then q + 1 else q + q % 2
    ensures IsNearestEven(res, n, d)
  {
    if res == q + 1 {
      assert (q + 1) * d == q * d + d;
    }
  }

  lemma TruncatedFromSplit(q: int, rem: int, n: int, d: int, res: int)
    requires n == q * d + rem && 0 <= rem < d
    requires res == if rem == 0 || n >= 0 then q else q + 1
    ensures IsTruncated(res, n, d)
  {
    NonzeroMultiple(q, d);
    if q >= 0 {
      assert q * d >= 0;
    }
    if res == q + 1 {
      assert (q + 1) * d == q * d + d;
    }
  }

  /** Rescaling returns exactly the correctly rounded quotient, in either mode. */
  lemma RescaleIsCorrectRounding(n: int, r: nat, q: int)
    ensures q == Rescale(n, r, NearestTiesToEven) <==> IsNearestEven(q, n, Pow2(r))
    ensures q == Rescale(n, r, TruncateTowardZero) <==> IsTruncated(q, n, Pow2(r))
  {
    var s := SplitPow2(n, r);
    var half := if r == 0 then 0 else Pow2(r - 1);
    NearestFromSplit(s.q, s.rem, n, Pow2(r), half, Rescale(n, r, NearestTiesToEven));
    TruncatedFromSplit(s.q, s.rem, n, Pow2(r), Rescale(n, r, TruncateTowardZero));
    if IsNearestEven(q, n, Pow2(r)) {
      NearestEvenUnique(q, Rescale(n, r, NearestTiesToEven), n, Pow2(r));
    }
    if IsTruncated(q, n, Pow2(r)) {
      TruncatedUnique(q, Rescale(n, r, TruncateTowardZero), n, Pow2(r));
    }
  }

  /**
   * Requantization is the correctly rounded quotient, shifted by the zero point and moved
   * to the nearer bound when outside the clamp.
   */
  lemma RequantizeMeaning(n: int, r: nat, zeroPoint: int, lo: int, hi: int, mode: Rounding, q: int)
    requires lo <= hi
    requires if mode.NearestTiesToEven? then IsNearestEven(q, n, Pow2(r)) else IsTruncated(q, n, Pow2(r))
    ensures var v := Requantize(n, r, zeroPoint, lo, hi, mode);
            lo <= v <= hi && (v < q + zeroPoint ==> v == hi) && (v > q + zeroPoint ==> v == lo)
  {
    RescaleIsCorrectRounding(n, r, q);
  }

  lemma {:induction false} Pow2Grows(a: nat, b: nat)
    requires a <= b
    ensures Pow2(a) <= Pow2(b)
  {
    if a < b { Pow2Grows(a, b - 1); }
  }

  /** The valid shifts are those whose power of two is an i64. */
  lemma ShiftFitsI64(r: nat)
    ensures ValidShift(r) <==> Field.FitsI64(Pow2(r))
  {
    hide Pow2;
    Pow2At62();
    if r <= 62 { Pow2Grows(r, 62); } else { Pow2Grows(63, r); }
  }

  lemma Pow2At62()
    ensures Pow2(62) == 0x4000_0000_0000_0000 && Pow2(63) == 0x8000_0000_0000_0000
  {
    assert Pow2(8) == 256 && Pow2(6) == 64;
    Pow2Sum(8, 6);
    Pow2Sum(8, 8);
    Pow2Sum(16, 14);
    Pow2Sum(16, 16);
    Pow2Sum(32, 30);
  }

  lemma {:induction false} Pow2Sum(a: nat, b: nat)
    ensures Pow2(a + b) == Pow2(a) * Pow2(b)
  {
    if a > 0 { Pow2Sum(a - 1, b); }
  }

  lemma OddSymmetry(q: int, n: int, d: int)
    requires d > 0
    ensures IsNearestEven(q, n, d) ==> IsNearestEven(-q, -n, d)
    ensures IsTruncated(q, n, d) ==> IsTruncated(-q, -n, d)
  {
    assert (-q) * d == -(q * d);
    if IsTruncated(q, 0, d) {
      NonzeroMultiple(q, d);
    }
  }

  /** Both modes are odd functions: negating the input negates the result. */
  lemma RescaleIsOdd(n: int, r: nat, mode: Rounding)
    ensures Rescale(-n, r, mode) == -Rescale(n, r, mode)
  {
    var q := Rescale(n, r, mode);
    RescaleIsCorrectRounding(n, r, q);
    OddSymmetry(q, n, Pow2(r));
    RescaleIsCorrectRounding(-n, r, -q);
  }

  lemma NearestMonotone(p: int, q: int, m: int, n: int, d: int)
    requires d > 0 && m <= n && IsNearestEven(p, m, d) && IsNearestEven(q, n, d)
    ensures p <= q
  {
    MultiplesApart(p, q, d);
  }

  lemma TruncatedMonotone(p: int, q: int, m: int, n: int, d: int)
    requires d > 0 && m <= n && IsTruncated(p, m, d) && IsTruncated(q, n, d)
    ensures p <= q
  {
    MultiplesApart(p, q, d);
  }

  lemma RescaleIsMonotone(m: int, n: int, r: nat, mode: Rounding)
    requires m <= n
    ensures Rescale(m, r, mode) <= Rescale(n, r, mode)
  {
    var p, q := Rescale(m, r, mode), Rescale(n, r, mode);
    RescaleIsCorrectRounding(m, r, p);
    RescaleIsCorrectRounding(n, r, q);
    match mode
    case NearestTiesToEven => NearestMonotone(p, q, m, n, Pow2(r));
    case TruncateTowardZero => TruncatedMonotone(p, q, m, n, Pow2(r));
  }

  /** Requantization is nondecreasing in its input through zero point and clamp. */
  lemma RequantizeIsMonotone(m: int, n: int, r: nat, zeroPoint: int, lo: int, hi: int, mode: Rounding)
    requires m <= n && lo <= hi
    ensures Requantize(m, r, zeroPoint, lo, hi, mode) <= Requantize(n, r, zeroPoint, lo, hi, mode)
    ensures lo <= Requantize(n, r, zeroPoint, lo, hi, mode) <= hi
  {
    RescaleIsMonotone(m, n, r, mode);
  }
}
