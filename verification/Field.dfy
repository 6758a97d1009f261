/**
 * crates/pwm-core/src/field.rs: the value-encoding field M31 and the audit field
 * F_p with p = 2^61 - 1, computed by folding with 2^61 = 1 (mod p).
 */
module Field {
  import opened Wrappers
  import opened Arith

  // ------------------------------------------------------------------- M31

  const M31_P := 0x7fff_ffff
  const P_HALF := 1073741823

  predicate InSignedRange(x: int) { -P_HALF <= x <= P_HALF }

  function Encode(x: int): int
    requires InSignedRange(x)
  {
    x % M31_P
  }

  /** The checked encoder: None stands for `OutOfRange`. */
  function TryEncode(x: int): (r: Option<int>)
    ensures r.Some? <==> InSignedRange(x)
    ensures r.Some? ==> 0 <= r.value < M31_P && Decode(r.value) == x
  {
    if InSignedRange(x) then Some(Encode(x)) else None
  }

  function Decode(f: int): int {
    if f <= P_HALF then f else f - M31_P
  }

  /** Every canonical residue is the encoding of exactly the integer it decodes to. */
  lemma EncodeInvertsDecode(f: int)
    requires 0 <= f < M31_P
    ensures TryEncode(Decode(f)) == Some(f)
  {
    if f > P_HALF {
      ModUnique(f - M31_P, M31_P, -1, f);
    }
  }

  // ------------------------------------------------------------------- Fp61

  const P: int := 0x1fff_ffff_ffff_ffff
  const TWO61: int := 0x2000_0000_0000_0000
  const TWO64: int := 0x1_0000_0000_0000_0000
  const TWO122: int := 0x400_0000_0000_0000_0000_0000_0000_0000
  const TWO128: int := 0x1_0000_0000_0000_0000_0000_0000_0000_0000
  const I64_MIN: int := -0x8000_0000_0000_0000
  const I64_MAX: int := 0x7fff_ffff_ffff_ffff

  /** A canonical element of the audit field. */
  type Fp = x: int | 0 <= x < P

  predicate FitsI64(x: int) { I64_MIN <= x <= I64_MAX }

  /** `x & (2^61 - 1)` and `x >> 61` of an unsigned word. */
  function Low61(x: int): int requires 0 <= x { x % TWO61 }
  function High61(x: int): int requires 0 <= x { x / TWO61 }

  lemma Fold(x: int)
    requires 0 <= x
    ensures x == High61(x) * TWO61 + Low61(x)
    ensures Cong(x, High61(x) + Low61(x), P)
  {
    CongShift(High61(x) + Low61(x), High61(x), P);
  }

  lemma Canonical(x: int, r: int)
    requires 0 <= r < P && Cong(x, r, P)
    ensures r == x % P
  {
    ModUnique(r, P, 0, r);
  }

  function Reduce64(x: int): (r: Fp)
    requires 0 <= x < TWO64
    ensures r == x % P
  {
    var s := Low61(x) + High61(x);
    var r := if s >= P then s - P else s;
    assert r == x % P by {
      Fold(x);
      CongShift(s, -1, P);
      Canonical(x, r);
    }
    r
  }

  function Reduce128(x: int): (r: Fp)
    requires 0 <= x < TWO128
    ensures r == x % P
  {
    var lo := Low61(x);
    var mid := Low61(High61(x));
    var hi := x / TWO122;
    var s := lo + mid + hi;
    var folded := Low61(s) + High61(s);
    var r := if folded >= P then folded - P else folded;
    assert r == x % P by { Reduce128Folds(x, r); }
    r
  }

  lemma Reduce128Folds(x: int, r: int)
    requires 0 <= x < TWO128
    requires var s := Low61(x) + Low61(High61(x)) + x / TWO122;
             var folded := Low61(s) + High61(s);
             r == if folded >= P then folded - P else folded
    ensures 0 <= r < P && r == x % P
  {
    var y := High61(x);
    var s := Low61(x) + Low61(y) + x / TWO122;
    var folded := Low61(s) + High61(s);
    assert High61(y) == x / TWO122;
    assert 0 <= x / TWO122 < 64;
    hide Low61, High61;
    Fold(x);
    Fold(y);
    CongAdd(y, High61(y) + Low61(y), Low61(x), Low61(x), P);
    assert Cong(x, s, P);
    assert 0 <= s < 3 * TWO61;
    Fold(s);
    assert High61(s) <= 2;
    assert folded < 2 * P;
    CongShift(folded, -1, P);
    Canonical(x, r);
  }

  function Add(a: Fp, b: Fp): (r: Fp)
    ensures r == (a + b) % P
  {
    var s := a + b;
    var r := if s >= P then s - P else s;
    assert r == s % P by {
      CongShift(s, -1, P);
      Canonical(s, r);
    }
    r
  }

  function Sub(a: Fp, b: Fp): (r: Fp)
    ensures r == (a - b) % P
  {
    var r := if a >= b then a - b else a + P - b;
    assert r == (a - b) % P by {
      CongShift(a - b, 1, P);
      Canonical(a - b, r);
    }
    r
  }

  lemma ProductFits(a: Fp, b: Fp)
    ensures 0 <= a * b < TWO128
  {
    MulMono(0, a, b);
    MulMono(a, P, b);
    MulMono(b, P, P);
  }

  function Mul(a: Fp, b: Fp): (r: Fp)
    ensures r == (a * b) % P
  {
    ProductFits(a, b);
    Reduce128(a * b)
  }

  function FromI64(x: int): (r: Fp)
    requires FitsI64(x)
    ensures r == x % P
  {
    if x >= 0 then Reduce64(x)
    else
      var m := Reduce64(-x);
      var r := if m == 0 then 0 else P - m;
      assert r == x % P by {
        CongAdd(0, 0, -x, m, P);
        CongShift(0 - m, 1, P);
        Canonical(x, r);
      }
      r
  }
}
