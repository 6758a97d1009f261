/** Bytes, fixed-width little-endian integers, and digests. */
module Bytes {
  import opened Arith

  type Byte = x: int | 0 <= x < 256
  type Digest = d: seq<Byte> | |d| == 32 witness seq(32, _ => 0)

  /** The hash primitive (Blake2s-256 in the original), kept uninterpreted. */
  type HashFn = seq<Byte> -> Digest

  /** Two byte strings, meant to be different inputs with the same hash. */
  datatype Pair = Pair(x: seq<Byte>, y: seq<Byte>) {
    predicate Collides(h: HashFn) { x != y && h(x) == h(y) }
  }

  function Pow256(n: nat): (p: int)
    ensures p >= 1
  {
    if n == 0 then 1 else 256 * Pow256(n - 1)
  }

  /** The low `n` bytes of the two's-complement representation of `x`. */
  function LE(x: int, n: nat): (b: seq<Byte>)
    ensures |b| == n
    decreases n
  {
    if n == 0 then [] else [x % 256] + LE(x / 256, n - 1)
  }

  function FromLE(b: seq<Byte>): (x: int)
    ensures 0 <= x < Pow256(|b|)
  {
    if |b| == 0 then 0 else b[0] + 256 * FromLE(b[1..])
  }

  lemma {:induction false} FromLEOfLE(x: int, n: nat)
    ensures FromLE(LE(x, n)) == x % Pow256(n)
    decreases n
  {
    if n == 0 {
      ModUnique(x, 1, x, 0);
    } else {
      var lo, hi := x % 256, x / 256;
      var m := Pow256(n - 1);
      FromLEOfLE(hi, n - 1);
      assert LE(x, n)[1..] == LE(hi, n - 1);
      var q, r := hi / m, hi % m;
      assert x == q * (256 * m) + (lo + 256 * r) by {
        assert hi == q * m + r;
        assert q * (256 * m) == 256 * (q * m);
      }
      ModUnique(x, 256 * m, q, lo + 256 * r);
    }
  }

  lemma {:induction false} LEOfFromLE(b: seq<Byte>, x: int)
    requires Cong(x, FromLE(b), Pow256(|b|))
    ensures LE(x, |b|) == b
  {
    var n := |b|;
    if n != 0 {
      var k := CongDiff(x, FromLE(b), Pow256(n));
      var m := Pow256(n - 1);
      assert x == (FromLE(b[1..]) + k * m) * 256 + b[0] by {
        assert k * (256 * m) == (k * m) * 256;
      }
      ModUnique(x, 256, FromLE(b[1..]) + k * m, b[0]);
      CongShift(FromLE(b[1..]), k, m);
      LEOfFromLE(b[1..], x / 256);
    }
  }

  /** Integers of one width are determined by their bytes. */
  lemma LEInjective(x: int, y: int, n: nat)
    requires LE(x, n) == LE(y, n) && -Pow256(n) < x - y < Pow256(n)
    ensures x == y
  {
    FromLEOfLE(x, n);
    FromLEOfLE(y, n);
    CongClose(x, y, Pow256(n));
  }
}
