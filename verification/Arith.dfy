/** Integer facts used throughout: congruences, powers of two, integer vectors. */
module Arith {

  const TWO32: nat := 0x1_0000_0000

  // ---------------------------------------------------------------- residues

  /** `a` and `b` leave the same remainder modulo `m`. */
  predicate Cong(a: int, b: int, m: int)
    requires m > 0
  {
    a % m == b % m
  }

  lemma NonzeroMultiple(k: int, m: int)
    requires m > 0
    ensures k >= 1 ==> k * m >= m
    ensures k <= -1 ==> k * m <= -m
  {
  }

  lemma MulSwap(a: int, b: int, c: int, d: int)
    ensures (a * b) * (c * d) == (a * c) * (b * d)
  {
    calc {
      (a * b) * (c * d);
      a * (b * (c * d));
      a * (c * (b * d));
      (a * c) * (b * d);
    }
  }

  lemma ModUnique(a: int, m: int, q: int, r: int)
    requires m > 0 && 0 <= r < m && a == q * m + r
    ensures a % m == r && a / m == q
  {
    var q', r' := a / m, a % m;
    assert a == q' * m + r';
    assert (q - q') * m == r' - r;
    NonzeroMultiple(q - q', m);
  }

  /** A multiple of the modulus can be added to either side of a congruence. */
  lemma CongShift(a: int, k: int, m: int)
    requires m > 0
    ensures Cong(a + k * m, a, m)
  {
    assert a + k * m == (a / m + k) * m + a % m;
    ModUnique(a + k * m, m, a / m + k, a % m);
  }

  lemma CongDiff(a: int, b: int, m: int) returns (k: int)
    requires m > 0 && Cong(a, b, m)
    ensures a == b + k * m
  {
    k := a / m - b / m;
    assert a == (a / m) * m + a % m && b == (b / m) * m + b % m;
    assert k * m == (a / m) * m - (b / m) * m;
  }

  lemma Distribute(k: int, l: int, m: int)
    ensures (k + l) * m == k * m + l * m && (k - l) * m == k * m - l * m
  {
  }

  lemma CongAdd(a: int, a': int, b: int, b': int, m: int)
    requires m > 0 && Cong(a, a', m) && Cong(b, b', m)
    ensures Cong(a + b, a' + b', m)
    ensures Cong(a - b, a' - b', m)
  {
    var k := CongDiff(a, a', m);
    var l := CongDiff(b, b', m);
    hide Cong;
    Distribute(k, l, m);
    CongBy(a + b, a' + b', k + l, m, k * m + l * m);
    CongBy(a - b, a' - b', k - l, m, k * m - l * m);
  }

  lemma CongBy(a: int, b: int, k: int, m: int, p: int)
    requires m > 0 && p == k * m && a == b + p
    ensures Cong(a, b, m)
  {
    CongShift(b, k, m);
  }

  /** Multiplying both sides by the same factor. */
  lemma CongScale(c: int, b: int, b': int, m: int)
    requires m > 0 && Cong(b, b', m)
    ensures Cong(c * b, c * b', m)
  {
    var l := CongDiff(b, b', m);
    hide Cong;
    assert c * b == c * b' + (c * l) * m by {
      assert c * (b' + l * m) == c * b' + c * (l * m);
      assert c * (l * m) == (c * l) * m;
    }
    CongShift(c * b', c * l, m);
  }

  lemma CongMul(a: int, a': int, b: int, b': int, m: int)
    requires m > 0 && Cong(a, a', m) && Cong(b, b', m)
    ensures Cong(a * b, a' * b', m)
  {
    CongScale(a, b, b', m);
    CongScale(b', a, a', m);
    assert a * b' == b' * a && b' * a' == a' * b';
  }

  lemma CongMod(a: int, m: int)
    requires m > 0
    ensures Cong(a % m, a, m)
  {
    ModUnique(a % m, m, 0, a % m);
  }

  /** Two congruent integers closer than the modulus are equal. */
  lemma CongClose(a: int, b: int, m: int)
    requires m > 0 && Cong(a, b, m) && -m < a - b < m
    ensures a == b
  {
    var k := CongDiff(a, b, m);
    NonzeroMultiple(k, m);
  }

  // ------------------------------------------------------------------ powers

  function Pow(b: int, e: nat): int {
    if e == 0 then 1 else b * Pow(b, e - 1)
  }

  function Pow2(e: nat): (p: int)
    ensures p >= 1
    ensures e >= 1 ==> p % 2 == 0
  {
    if e == 0 then 1 else 2 * Pow2(e - 1)
  }

  lemma MulAssoc(a: int, b: int, c: int)
    ensures (a * b) * c == a * (b * c)
  {
  }

  lemma {:induction false} PowAdd(b: int, m: nat, n: nat)
    ensures Pow(b, m + n) == Pow(b, m) * Pow(b, n)
  {
    if m != 0 {
      PowAdd(b, m - 1, n);
      MulAssoc(b, Pow(b, m - 1), Pow(b, n));
    }
  }

  lemma {:induction false} PowMul(b: int, m: nat, n: nat)
    ensures m * n >= 0
    ensures Pow(b, m * n) == Pow(Pow(b, m), n)
  {
    if n != 0 {
      PowMul(b, m, n - 1);
      assert m * n == m + m * (n - 1);
      PowAdd(b, m, m * (n - 1));
    }
  }

  lemma {:induction false} PowCong(a: int, b: int, e: nat, m: int)
    requires m > 0 && Cong(a, b, m)
    ensures Cong(Pow(a, e), Pow(b, e), m)
  {
    if e != 0 {
      PowCong(a, b, e - 1, m);
      CongMul(a, b, Pow(a, e - 1), Pow(b, e - 1), m);
    }
  }

  lemma {:induction false} PowOne(e: nat)
    ensures Pow(1, e) == 1
  {
    if e != 0 { PowOne(e - 1); }
  }

  // ---------------------------------------------------------- integer vectors

  /** Every entry of `s` lies in `[lo, hi]`. */
  predicate AllIn(s: seq<int>, lo: int, hi: int) {
    forall i :: 0 <= i < |s| ==> lo <= s[i] <= hi
  }

  function Zeros(n: nat): (z: seq<int>)
    ensures |z| == n
    ensures forall i :: 0 <= i < n ==> z[i] == 0
  {
    seq(n, _ => 0)
  }

  function Min(a: int, b: int): int { if a < b then a else b }

  function Mag(x: int): nat { if x < 0 then -x else x }

  /** The sum of the first `n` products of two vectors. */
  function DotN(a: seq<int>, b: seq<int>, n: nat): int
    requires n <= |a| && n <= |b|
  {
    if n == 0 then 0 else DotN(a, b, n - 1) + a[n - 1] * b[n - 1]
  }

  /** The inner product over the common length, the way `zip` pairs two slices. */
  function Dot(a: seq<int>, b: seq<int>): int {
    DotN(a, b, Min(|a|, |b|))
  }

  function SumN(a: seq<int>, n: nat): int
    requires n <= |a|
  {
    if n == 0 then 0 else SumN(a, n - 1) + a[n - 1]
  }

  function Sum(a: seq<int>): int {
    SumN(a, |a|)
  }

  lemma {:induction false} DotNCongruent(a: seq<int>, a': seq<int>, b: seq<int>, n: nat, m: int)
    requires m > 0 && n <= |a| && n <= |a'| && n <= |b|
    requires forall i :: 0 <= i < n ==> Cong(a[i], a'[i], m)
    ensures Cong(DotN(a, b, n), DotN(a', b, n), m)
  {
    if n != 0 {
      DotNCongruent(a, a', b, n - 1, m);
      CongMul(a[n - 1], a'[n - 1], b[n - 1], b[n - 1], m);
      CongAdd(DotN(a, b, n - 1), DotN(a', b, n - 1), a[n - 1] * b[n - 1], a'[n - 1] * b[n - 1], m);
    }
  }

  lemma {:induction false} DotNExt(a: seq<int>, b: seq<int>, a': seq<int>, b': seq<int>, n: nat)
    requires n <= |a| && n <= |b| && n <= |a'| && n <= |b'|
    requires forall i :: 0 <= i < n ==> a[i] == a'[i] && b[i] == b'[i]
    ensures DotN(a, b, n) == DotN(a', b', n)
  {
    if n != 0 { DotNExt(a, b, a', b', n - 1); }
  }

  lemma {:induction false} DotNZero(a: seq<int>, b: seq<int>, n: nat)
    requires n <= |a| && n <= |b|
    requires forall i :: 0 <= i < n ==> a[i] == 0
    ensures DotN(a, b, n) == 0
  {
    if n != 0 { DotNZero(a, b, n - 1); }
  }

  /** `(a + k·c)·x = a·x + k·(c·x)`. */
  lemma {:induction false} DotNAddScaled(a: seq<int>, c: seq<int>, sum: seq<int>, k: int, x: seq<int>, n: nat)
    requires n <= |a| && n <= |c| && n <= |x| && n <= |sum|
    requires forall i :: 0 <= i < n ==> sum[i] == a[i] + k * c[i]
    ensures DotN(sum, x, n) == DotN(a, x, n) + k * DotN(c, x, n)
  {
    if n != 0 {
      DotNAddScaled(a, c, sum, k, x, n - 1);
      var y := x[n - 1];
      assert (a[n - 1] + k * c[n - 1]) * y == a[n - 1] * y + k * (c[n - 1] * y);
      assert k * (DotN(c, x, n - 1) + c[n - 1] * y) == k * DotN(c, x, n - 1) + k * (c[n - 1] * y);
    }
  }

  /** `r·(b + e) = r·b + r·e`. */
  lemma {:induction false} DotNSumRight(r: seq<int>, b: seq<int>, e: seq<int>, sum: seq<int>, n: nat)
    requires n <= |r| && n <= |b| && n <= |e| && n <= |sum|
    requires forall i :: 0 <= i < n ==> sum[i] == b[i] + e[i]
    ensures DotN(r, sum, n) == DotN(r, b, n) + DotN(r, e, n)
  {
    if n != 0 {
      DotNSumRight(r, b, e, sum, n - 1);
      assert r[n - 1] * (b[n - 1] + e[n - 1]) == r[n - 1] * b[n - 1] + r[n - 1] * e[n - 1];
    }
  }

  lemma MulMono(a: int, b: int, c: int)
    requires a <= b && c >= 0
    ensures a * c <= b * c
  {
  }

  /** Distinct multiples of `d` are at least `d` apart. */
  lemma MultiplesApart(p: int, q: int, d: int)
    requires d > 0
    ensures p > q ==> p * d >= q * d + d
    ensures p > q + 1 ==> p * d >= q * d + 2 * d
  {
    if p > q {
      MulMono(q + 1, p, d);
      assert (q + 1) * d == q * d + d;
    }
    if p > q + 1 {
      MulMono(q + 2, p, d);
      assert (q + 2) * d == q * d + 2 * d;
    }
  }

  /** A product of bounded factors is bounded by the product of the bounds. */
  lemma MulBound(a: int, b: int, A: int, B: int)
    requires -A <= a <= A && -B <= b <= B
    ensures -(A * B) <= a * b <= A * B
  {
    assert (A - a) * (B + b) >= 0 && (A + a) * (B - b) >= 0;
    assert (A - a) * (B - b) >= 0 && (A + a) * (B + b) >= 0;
  }

  /** `|a·x| <= n·A·B` when the entries are bounded by `A` and `B`. */
  lemma {:induction false} DotNBound(a: seq<int>, x: seq<int>, n: nat, A: int, B: int)
    requires n <= |a| && n <= |x|
    requires forall i :: 0 <= i < n ==> -A <= a[i] <= A
    requires forall i :: 0 <= i < n ==> -B <= x[i] <= B
    ensures -(n * (A * B)) <= DotN(a, x, n) <= n * (A * B)
  {
    if n != 0 {
      DotNBound(a, x, n - 1, A, B);
      MulBound(a[n - 1], x[n - 1], A, B);
      assert n * (A * B) == (n - 1) * (A * B) + A * B;
    }
  }

  /** A sum of `n` terms in `[lo, hi]` lies in `[n·lo, n·hi]`. */
  lemma {:induction false} SumNBound(a: seq<int>, n: nat, lo: int, hi: int)
    requires n <= |a|
    requires forall i :: 0 <= i < n ==> lo <= a[i] <= hi
    ensures n * lo <= SumN(a, n) <= n * hi
  {
    if n != 0 {
      SumNBound(a, n - 1, lo, hi);
      assert n * lo == (n - 1) * lo + lo && n * hi == (n - 1) * hi + hi;
    }
  }
}
