/**
 * 2^61 - 1 is prime (crates/pwm-core/src/field.rs:118 relies on it). The proof is a
 * Pocklington certificate: BASE has exact order FACTOR modulo every nontrivial
 * divisor of p, so every such divisor is at least FACTOR, and FACTOR^2 > p.
 */
module Primality {
  import opened Arith
  import opened Field
  import opened FiniteSets

  ghost predicate IsPrime(n: int) {
    n > 1 && forall d :: 1 < d < n ==> n % d != 0
  }

  predicate Divides(d: int, n: int)
    requires d != 0
  {
    n % d == 0
  }

  // ------------------------------------------------- elementary number theory

  lemma DividesIntro(d: int, n: int, k: int)
    requires d > 0 && n == k * d
    ensures Divides(d, n) && n / d == k
  {
    ModUnique(n, d, k, 0);
  }

  /** Bezout: some integer combination of `a` and `b` divides both. */
  lemma {:induction false} Bezout(a: nat, b: nat) returns (x: int, y: int, g: nat)
    requires a > 0
    ensures g > 0 && x * a + y * b == g
    ensures Divides(g, a) && Divides(g, b)
    decreases b
  {
    if b == 0 {
      x, y, g := 1, 0, a;
      DividesIntro(a, a, 1);
    } else {
      var q, r := a / b, a % b;
      var x', y', g' := Bezout(b, r);
      x, y, g := y', x' - q * y', g';
      calc {
        x * a + y * b;
        y' * (q * b + r) + (x' - q * y') * b;
        { assert y' * (q * b + r) == y' * q * b + y' * r; assert (x' - q * y') * b == x' * b - q * y' * b; }
        x' * b + y' * r;
      }
      var u, w := b / g, r / g;
      assert b == u * g && r == w * g;
      assert a == (q * u + w) * g by { assert q * (u * g) == (q * u) * g; }
      DividesIntro(g, a, q * u + w);
    }
  }

  /** A prime either divides `n` or has an integer combination with `n` equal to 1. */
  lemma PrimeBezout(q: int, n: nat) returns (x: int, y: int)
    requires IsPrime(q)
    ensures Divides(q, n) || x * q + y * n == 1
  {
    var g;
    x, y, g := Bezout(q, n);
    if g > 1 {
      assert g <= q by { assert q == (q / g) * g; NonzeroMultiple(q / g, g); }
      assert g == q;
    }
  }

  lemma Euclid(q: int, a: nat, b: nat)
    requires IsPrime(q) && Divides(q, a * b)
    ensures Divides(q, a) || Divides(q, b)
  {
    var x, y := PrimeBezout(q, a);
    if !Divides(q, a) {
      var m := a * b / q;
      calc {
        b;
        (x * q + y * a) * b;
        x * q * b + y * (a * b);
        { assert a * b == m * q; }
        x * q * b + y * (m * q);
        (x * b + y * m) * q;
      }
      DividesIntro(q, b, x * b + y * m);
    }
  }

  /** Every nonzero residue modulo a prime has an inverse. */
  lemma Inverse(q: int, a: int) returns (inv: int)
    requires IsPrime(q) && !Divides(q, a)
    ensures 0 <= inv < q && Cong(a * inv, 1, q)
  {
    var x, y := PrimeBezout(q, a % q);
    CongMod(a, q);
    if Divides(q, a % q) { assert false; }
    inv := y % q;
    CongMod(y, q);
    CongMul(a, a % q, inv, y, q);
    assert (a % q) * y == 1 + (-x) * q by { assert x * q + y * (a % q) == 1; }
    CongShift(1, -x, q);
  }

  /** Trial division up to the square root decides primality. */
  predicate NoSmallDivisor(n: nat, d: nat)
    requires d >= 2
    decreases n - d
  {
    d > n || d * d > n || (n % d != 0 && NoSmallDivisor(n, d + 1))
  }

  lemma SquareMonotone(d: nat, c: nat)
    requires d <= c
    ensures d * d <= c * c
  {
    assert (c - d) * (c + d) >= 0;
  }

  lemma {:induction false} NoSmallDivisorMeans(n: nat, d: nat, c: nat)
    requires d >= 2 && NoSmallDivisor(n, d) && d <= c && c * c <= n
    ensures n % c != 0
    decreases n - d
  {
    if d * d > n {
      SquareMonotone(d, c);
    } else if d < c {
      NoSmallDivisorMeans(n, d + 1, c);
    }
  }

  lemma TrialDivision(n: nat)
    requires n > 1 && NoSmallDivisor(n, 2)
    ensures IsPrime(n)
  {
    forall d | 1 < d < n ensures n % d != 0 {
      if n % d == 0 {
        var e := n / d;
        assert n == e * d;
        assert e > 1 by { if e <= 1 { NonzeroMultiple(1 - e, d); } }
        var c := if d <= e then d else e;
        assert c * c <= n by {
          if d <= e { MulMono(d, e, d); } else { MulMono(e, d, e); }
        }
        NoSmallDivisorMeans(n, 2, c);
        DividesIntro(d, n, e);
        DividesIntro(e, n, d);
      }
    }
  }

  // ------------------------------------------------------------ the certificate
  //
  // Four primes q dividing p - 1, and for each an element g with g^q = 1 whose g - 1
  // is invertible modulo p. 2 itself serves for q = 61.

  const FACTOR: int := 61 * 151 * 331 * 1321

  /** A certificate: g itself, or a product `a·b = k·p + c` of two certified powers. */
  datatype Chain = Base | Times(left: Chain, right: Chain, k: int, c: int)

  function Exponent(ch: Chain): nat {
    match ch
    case Base => 1
    case Times(l, r, _, _) => Exponent(l) + Exponent(r)
  }

  function Residue(g: int, ch: Chain): int {
    match ch
    case Base => g
    case Times(_, _, _, c) => c
  }

  predicate Proves(g: int, ch: Chain) {
    match ch
    case Base => true
    case Times(l, r, k, c) => Proves(g, l) && Proves(g, r) && Residue(g, l) * Residue(g, r) == k * P + c
  }

  lemma {:induction false} ChainSound(g: int, ch: Chain)
    requires Proves(g, ch)
    ensures Cong(Pow(g, Exponent(ch)), Residue(g, ch), P)
  {
    match ch
    case Base => PowFirst(g);
    case Times(l, r, k, c) =>
      ChainSound(g, l);
      ChainSound(g, r);
      PowAdd(g, Exponent(l), Exponent(r));
      CongMul(Pow(g, Exponent(l)), Residue(g, l), Pow(g, Exponent(r)), Residue(g, r), P);
      CongShift(c, k, P);
  }

  lemma PowFirst(g: int)
    ensures Pow(g, 1) == g
  {
    assert Pow(g, 0) == 1;
  }

  /** `g` has order exactly the prime `q`: g^q = 1, and g - 1 is invertible modulo p. */
  datatype Certificate = Certificate(g: int, q: int, chain: Chain, inv: int, k: int) {
    ghost predicate Valid() {
      && IsPrime(q)
      && Proves(g, chain) && Exponent(chain) == q && Residue(g, chain) == 1
      && (g - 1) * inv == 1 + k * P
    }
  }

  lemma Prime61()
    ensures IsPrime(61)
  {
    TrialDivision(61);
  }

  lemma Order61() returns (cert: Certificate)
    ensures cert.Valid() && cert.q == 61
  {
    Prime61();
    hide IsPrime;
    var c1 := Base;
    var c2 := Times(c1, c1, 0, 4);
    assert Proves(2, c2) && Exponent(c2) == 2;
    var c3 := Times(c2, c1, 0, 8);
    assert Proves(2, c3) && Exponent(c3) == 3;
    var c6 := Times(c3, c3, 0, 64);
    assert Proves(2, c6) && Exponent(c6) == 6;
    var c7 := Times(c6, c1, 0, 128);
    assert Proves(2, c7) && Exponent(c7) == 7;
    var c14 := Times(c7, c7, 0, 16384);
    assert Proves(2, c14) && Exponent(c14) == 14;
    var c15 := Times(c14, c1, 0, 32768);
    assert Proves(2, c15) && Exponent(c15) == 15;
    var c30 := Times(c15, c15, 0, 1073741824);
    assert Proves(2, c30) && Exponent(c30) == 30;
    var c60 := Times(c30, c30, 0, 1152921504606846976);
    assert Proves(2, c60) && Exponent(c60) == 60;
    var c61 := Times(c60, c1, 1, 1);
    assert Proves(2, c61) && Exponent(c61) == 61;
    cert := Certificate(2, 61, c61, 1, 0);
  }

  lemma Prime151()
    ensures IsPrime(151)
  {
    TrialDivision(151);
  }

  lemma Order151() returns (cert: Certificate)
    ensures cert.Valid() && cert.q == 151
  {
    Prime151();
    hide IsPrime;
    var c1 := Base;
    var c2 := Times(c1, c1, 2120515929363880955, 1905995146105303396);
    assert Proves(2211238755008147949, c2) && Exponent(c2) == 2;
    var c4 := Times(c2, c2, 1575483448986316291, 63567945049677075);
    assert Proves(2211238755008147949, c4) && Exponent(c4) == 4;
    var c8 := Times(c4, c4, 1752453927562366, 1288863997991107559);
    assert Proves(2211238755008147949, c8) && Exponent(c8) == 8;
    var c9 := Times(c8, c1, 1235984414769218308, 1094750906426191583);
    assert Proves(2211238755008147949, c9) && Exponent(c9) == 9;
    var c18 := Times(c9, c9, 519757651467198829, 652144535748462510);
    assert Proves(2211238755008147949, c18) && Exponent(c18) == 18;
    var c36 := Times(c18, c18, 184441219028005268, 1403639591507766232);
    assert Proves(2211238755008147949, c36) && Exponent(c36) == 36;
    var c37 := Times(c36, c1, 1346050988902399905, 1152182138280783513);
    assert Proves(2211238755008147949, c37) && Exponent(c37) == 37;
    var c74 := Times(c37, c37, 575721623054455877, 2139767711661321142);
    assert Proves(2211238755008147949, c74) && Exponent(c74) == 74;
    var c75 := Times(c74, c1, 2051977203926860376, 489946467164852182);
    assert Proves(2211238755008147949, c75) && Exponent(c75) == 75;
    var c150 := Times(c75, c75, 104104026045197761, 1458550166785717413);
    assert Proves(2211238755008147949, c150) && Exponent(c150) == 150;
    var c151 := Times(c150, c1, 1398708690068188736, 1);
    assert Proves(2211238755008147949, c151) && Exponent(c151) == 151;
    cert := Certificate(2211238755008147949, 151, c151, 1896004468068488480, 1818215092141647489);
  }

  lemma Prime331()
    ensures IsPrime(331)
  {
    assert NoSmallDivisor(331, 11);
    TrialDivision(331);
  }

  lemma Order331() returns (cert: Certificate)
    ensures cert.Valid() && cert.q == 331
  {
    Prime331();
    hide IsPrime;
    var c1 := Base;
    var c2 := Times(c1, c1, 964476947725731314, 1596621434058461027);
    assert Proves(1491285494954315879, c2) && Exponent(c2) == 2;
    var c4 := Times(c2, c2, 1105539272842425135, 2182127085158036344);
    assert Proves(1491285494954315879, c4) && Exponent(c4) == 4;
    var c5 := Times(c4, c1, 1411273212113782840, 1899072366902705536);
    assert Proves(1491285494954315879, c5) && Exponent(c5) == 5;
    var c10 := Times(c5, c5, 1564059582687406695, 1091085247126645351);
    assert Proves(1491285494954315879, c10) && Exponent(c10) == 10;
    var c20 := Times(c10, c10, 516282770223532703, 1672797255448133648);
    assert Proves(1491285494954315879, c20) && Exponent(c20) == 20;
    var c40 := Times(c20, c20, 1213547776953396517, 982058548882419237);
    assert Proves(1491285494954315879, c40) && Exponent(c40) == 40;
    var c41 := Times(c40, c1, 635138499582262988, 383641940377378735);
    assert Proves(1491285494954315879, c41) && Exponent(c41) == 41;
    var c82 := Times(c41, c41, 63829644008032383, 1157546146970984992);
    assert Proves(1491285494954315879, c82) && Exponent(c82) == 82;
    var c164 := Times(c82, c82, 581094669937781862, 185945230422323302);
    assert Proves(1491285494954315879, c164) && Exponent(c164) == 164;
    var c165 := Times(c164, c1, 120258588237240303, 1079428458485805305);
    assert Proves(1491285494954315879, c165) && Exponent(c165) == 165;
    var c330 := Times(c165, c165, 505310115360529382, 1709298423274974743);
    assert Proves(1491285494954315879, c330) && Exponent(c330) == 330;
    var c331 := Times(c330, c1, 1105475062696264896, 1);
    assert Proves(1491285494954315879, c331) && Exponent(c331) == 331;
    cert := Certificate(1491285494954315879, 331, c331, 1881382712785867029, 1216769198433903011);
  }

  lemma Prime1321()
    ensures IsPrime(1321)
  {
    assert NoSmallDivisor(1321, 28);
    assert NoSmallDivisor(1321, 19);
    assert NoSmallDivisor(1321, 10);
    TrialDivision(1321);
  }

  lemma Order1321() returns (cert: Certificate)
    ensures cert.Valid() && cert.q == 1321
  {
    Prime1321();
    hide IsPrime;
    var c1 := Base;
    var c2 := Times(c1, c1, 23758828293681047, 1138144871675203387);
    assert Proves(234060095121088422, c2) && Exponent(c2) == 2;
    var c4 := Times(c2, c2, 561778813104147651, 925218022786712668);
    assert Proves(234060095121088422, c4) && Exponent(c4) == 4;
    var c5 := Times(c4, c1, 93916462463353220, 1232610417245157676);
    assert Proves(234060095121088422, c5) && Exponent(c5) == 5;
    var c10 := Times(c5, c5, 658903678450937406, 2052015042159889870);
    assert Proves(234060095121088422, c10) && Exponent(c10) == 10;
    var c20 := Times(c10, c10, 1826128542327064373, 1413654373430909177);
    assert Proves(234060095121088422, c20) && Exponent(c20) == 20;
    var c40 := Times(c20, c20, 866675953018071667, 1399396648900431012);
    assert Proves(234060095121088422, c40) && Exponent(c40) == 40;
    var c41 := Times(c40, c1, 142049095035945800, 1189989421339087264);
    assert Proves(234060095121088422, c41) && Exponent(c41) == 41;
    var c82 := Times(c41, c41, 614124559755620835, 606841734917936611);
    assert Proves(234060095121088422, c82) && Exponent(c82) == 82;
    var c164 := Times(c82, c82, 159705968605290702, 1236305722200221719);
    assert Proves(234060095121088422, c164) && Exponent(c164) == 164;
    var c165 := Times(c164, c1, 125494161476156449, 2270811616122897419);
    assert Proves(234060095121088422, c165) && Exponent(c165) == 165;
    var c330 := Times(c165, c165, 2236312435544825414, 2278904677273990847);
    assert Proves(234060095121088422, c330) && Exponent(c330) == 330;
    var c660 := Times(c330, c330, 2252281056147120177, 1173230281344828082);
    assert Proves(234060095121088422, c660) && Exponent(c660) == 660;
    var c1320 := Times(c660, c660, 596948399160031538, 125558427495972086);
    assert Proves(234060095121088422, c1320) && Exponent(c1320) == 1320;
    var c1321 := Times(c1320, c1, 12745107696201341, 1);
    assert Proves(234060095121088422, c1321) && Exponent(c1321) == 1321;
    cert := Certificate(234060095121088422, 1321, c1321, 828993518632009434, 84148964630484863);
  }

  // ------------------------------------------------ orders modulo a divisor of p

  /** A congruence modulo p holds modulo any divisor of p. */
  lemma Descend(a: int, b: int, d: int)
    requires d > 0 && Divides(d, P) && Cong(a, b, P)
    ensures Cong(a, b, d)
  {
    var k := CongDiff(a, b, P);
    assert P == (P / d) * d;
    assert k * ((P / d) * d) == (k * (P / d)) * d;
    CongShift(b, k * (P / d), d);
  }

  /** A certified element has order exactly `q` modulo `d`: exponents of 1 are multiples of `q`. */
  lemma OrderDivides(cert: Certificate, d: int, e: nat)
    requires cert.Valid() && d > 1 && Divides(d, P)
    requires Cong(Pow(cert.g, e), 1, d)
    ensures Divides(cert.q, e)
  {
    var Certificate(g, q, chain, inv, k) := cert;
    ChainSound(g, chain);
    Descend(Pow(g, q), 1, d);
    if !Divides(q, e) {
      var x, y := PrimeBezout(q, e);
      PowersOfOne(g, q, e, x, y, d);
      CongAdd(g, 1, 1, 1, d);
      CongMul(g - 1, 0, inv, inv, d);
      CongShift(1, k, P);
      Descend(1 + k * P, 1, d);
      ModUnique(1, d, 0, 1);
      ModUnique(0, d, 0, 0);
      assert false;
    }
  }

  /** If g^q = g^e = 1 and x·q + y·e = 1 then g = 1. */
  lemma PowersOfOne(g: int, q: nat, e: nat, x: int, y: int, d: int)
    requires d > 1 && q > 0 && e >= 0 && x * q + y * e == 1
    requires Cong(Pow(g, q), 1, d) && Cong(Pow(g, e), 1, d)
    ensures Cong(g, 1, d)
  {
    // One coefficient is nonpositive: move it across to get g^(n+1) = g^n = 1.
    if x > 0 && y > 0 {
      NonzeroMultiple(x, q);
      assert e == 0 || y * e >= 1;
      assert q == 1 && e == 0;
      PowFirst(g);
    } else if x <= 0 {
      assert y * e == 1 + (-x) * q;
      PowerOfOne(g, q, -x, d);
      assert (-x) * q >= 0;
      NonzeroMultiple(y, e);
      PowerOfOne(g, e, y, d);
      NextPower(g, (-x) * q, y * e, d);
    } else {
      assert x * q == 1 + (-y) * e;
      assert (-y) * e >= 0;
      PowerOfOne(g, q, x, d);
      PowerOfOne(g, e, -y, d);
      NextPower(g, (-y) * e, x * q, d);
    }
  }

  lemma PowerOfOne(g: int, n: nat, t: nat, d: int)
    requires d > 1 && Cong(Pow(g, n), 1, d)
    ensures t * n >= 0 && Cong(Pow(g, t * n), 1, d)
  {
    PowMul(g, n, t);
    assert n * t == t * n;
    PowCong(Pow(g, n), 1, t, d);
    PowOne(t);
  }

  lemma NextPower(g: int, n: nat, n': nat, d: int)
    requires d > 1 && n' == n + 1 && Cong(Pow(g, n), 1, d) && Cong(Pow(g, n'), 1, d)
    ensures Cong(g, 1, d)
  {
    CongMul(g, g, Pow(g, n), 1, d);
  }

  // -------------------------------------------------------------- the theorem

  lemma {:induction false} PowProduct(a: int, b: int, e: nat)
    ensures Pow(a * b, e) == Pow(a, e) * Pow(b, e)
  {
    if e != 0 {
      PowProduct(a, b, e - 1);
      MulSwap(a, b, Pow(a, e - 1), Pow(b, e - 1));
    }
  }

  /** A product of elements of orders m and n is 1 at exponent m·n. */
  lemma ProductOrder(a: int, m: nat, b: int, n: nat)
    requires Cong(Pow(a, m), 1, P) && Cong(Pow(b, n), 1, P)
    ensures m * n >= 0 && Cong(Pow(a * b, m * n), 1, P)
  {
    PowerOfOne(a, m, n, P);
    PowerOfOne(b, n, m, P);
    PowProduct(a, b, m * n);
    assert m * n == n * m;
    CongMul(Pow(a, m * n), 1, Pow(b, m * n), 1, P);
  }

  /** If (g·rest)^k = 1 modulo d and rest^m = 1 with q not dividing m, then q divides k. */
  lemma PrimeDividesExponent(c: Certificate, rest: int, m: nat, k: nat, d: int)
    requires c.Valid() && d > 1 && Divides(d, P)
    requires Cong(Pow(rest, m), 1, P) && !Divides(c.q, m)
    requires Cong(Pow(c.g * rest, k), 1, d)
    ensures Divides(c.q, k)
  {
    var e := k * m;
    Descend(Pow(rest, m), 1, d);
    PowerOfOne(rest, m, k, d);
    PowerOfOne(c.g * rest, k, m, d);
    assert m * k == e;
    PowProduct(c.g, rest, e);
    CongMul(Pow(c.g, e), Pow(c.g, e), Pow(rest, e), 1, d);
    assert Cong(Pow(c.g, e), 1, d);
    OrderDivides(c, d, e);
    Euclid(c.q, k, m);
  }

  /** Distinct primes dividing k have their product dividing k. */
  lemma ProductDivides(q: int, n: int, k: int)
    requires IsPrime(q) && n > 0 && k >= 0 && !Divides(q, n) && Divides(q, k) && Divides(n, k)
    ensures q * n > 0 && Divides(q * n, k)
  {
    var t := k / n;
    assert k == t * n;
    assert t >= 0 by { NonzeroMultiple(t, n); }
    Euclid(q, t, n);
    var u := t / q;
    assert t == u * q;
    assert k == u * (q * n) by { assert (u * q) * n == u * (q * n); }
    NonzeroMultiple(q, n);
    DividesIntro(q * n, k, u);
  }

  /** Every divisor d > 1 of p is at least the product of the certified primes. */
  lemma Pocklington(a: Certificate, b: Certificate, c: Certificate, e: Certificate, d: int)
    requires a.Valid() && b.Valid() && c.Valid() && e.Valid()
    requires !Divides(a.q, b.q * (c.q * e.q)) && !Divides(b.q, a.q * (c.q * e.q))
    requires !Divides(c.q, (a.q * b.q) * e.q) && !Divides(e.q, (a.q * b.q) * c.q)
    requires !Divides(b.q, c.q * e.q) && !Divides(c.q, e.q)
    requires d > 1 && Divides(d, P)
    ensures a.q * (b.q * (c.q * e.q)) <= d
  {
    var base := a.g * (b.g * (c.g * e.g));
    var F := a.q * (b.q * (c.q * e.q));
    var f := (i: int) => if i < 0 then 0 else Pow(base, i) % d;
    forall i: int, j: int | 0 <= i < j < F ensures f(i) != f(j) {
      if f(i) == f(j) {
        assert Cong(Pow(base, i), Pow(base, j), d);
        FullOrder(a, b, c, e, base, d);
        CancelPower(base, F, i, j, d);
        AllDivide(a, b, c, e, j - i, d);
        var t := (j - i) / F;
        assert j - i == t * F;
        NonzeroMultiple(t, F);
        assert false;
      }
    }
    NonzeroMultiple(c.q, e.q);
    NonzeroMultiple(b.q, c.q * e.q);
    NonzeroMultiple(a.q, b.q * (c.q * e.q));
    Pigeonhole(f, F, d);
  }

  lemma Certified(c: Certificate)
    requires c.Valid()
    ensures Cong(Pow(c.g, c.q), 1, P)
  {
    ChainSound(c.g, c.chain);
  }

  lemma FullOrder(a: Certificate, b: Certificate, c: Certificate, e: Certificate, base: int, d: int)
    requires a.Valid() && b.Valid() && c.Valid() && e.Valid() && d > 1 && Divides(d, P)
    requires base == a.g * (b.g * (c.g * e.g))
    ensures var F := a.q * (b.q * (c.q * e.q)); F > 0 && Cong(Pow(base, F), 1, d)
  {
    Certified(a); Certified(b); Certified(c); Certified(e);
    ProductOrder(c.g, c.q, e.g, e.q);
    ProductOrder(b.g, b.q, c.g * e.g, c.q * e.q);
    ProductOrder(a.g, a.q, b.g * (c.g * e.g), b.q * (c.q * e.q));
    NonzeroMultiple(c.q, e.q);
    NonzeroMultiple(b.q, c.q * e.q);
    NonzeroMultiple(a.q, b.q * (c.q * e.q));
    Descend(Pow(base, a.q * (b.q * (c.q * e.q))), 1, d);
  }

  /** Powers of an element of finite order cancel: g^i = g^j gives g^(j-i) = 1. */
  lemma CancelPower(g: int, F: nat, i: nat, j: nat, d: int)
    requires d > 1 && F > 0 && i < j && Cong(Pow(g, F), 1, d) && Cong(Pow(g, i), Pow(g, j), d)
    ensures Cong(Pow(g, j - i), 1, d)
  {
    // Multiply both sides by g^(i·F - i).
    PowerOfOne(g, F, i, d);
    var m := i * F - i;
    assert m >= 0 by { assert i * (F - 1) >= 0; assert i * (F - 1) == i * F - i; }
    PowAdd(g, m, i);
    PowAdd(g, m, j);
    PowAdd(g, i * F, j - i);
    CongMul(Pow(g, m), Pow(g, m), Pow(g, i), Pow(g, j), d);
    assert Cong(1, Pow(g, i * F + (j - i)), d);
    CongMul(Pow(g, i * F), 1, Pow(g, j - i), Pow(g, j - i), d);
  }

  lemma Reorder(a: int, b: int, c: int, e: int)
    ensures b * (a * (c * e)) == a * (b * (c * e))
    ensures c * ((a * b) * e) == a * (b * (c * e))
    ensures e * ((a * b) * c) == a * (b * (c * e))
  {
    MulSwap(b, a, c, e);
    MulSwap(a, b, c, e);
  }

  lemma AllDivide(a: Certificate, b: Certificate, c: Certificate, e: Certificate, k: nat, d: int)
    requires a.Valid() && b.Valid() && c.Valid() && e.Valid()
    requires !Divides(a.q, b.q * (c.q * e.q)) && !Divides(b.q, a.q * (c.q * e.q))
    requires !Divides(c.q, (a.q * b.q) * e.q) && !Divides(e.q, (a.q * b.q) * c.q)
    requires !Divides(b.q, c.q * e.q) && !Divides(c.q, e.q)
    requires d > 1 && Divides(d, P)
    requires Cong(Pow(a.g * (b.g * (c.g * e.g)), k), 1, d)
    ensures var F := a.q * (b.q * (c.q * e.q)); F > 0 && Divides(F, k)
  {
    Certified(a); Certified(b); Certified(c); Certified(e);
    ProductOrder(c.g, c.q, e.g, e.q);
    ProductOrder(a.g, a.q, b.g, b.q);
    ProductOrder(b.g, b.q, c.g * e.g, c.q * e.q);
    PrimeDividesExponent(a, b.g * (c.g * e.g), b.q * (c.q * e.q), k, d);
    ProductOrder(a.g, a.q, c.g * e.g, c.q * e.q);
    Reorder(a.g, b.g, c.g, e.g);
    PrimeDividesExponent(b, a.g * (c.g * e.g), a.q * (c.q * e.q), k, d);
    ProductOrder(a.g * b.g, a.q * b.q, e.g, e.q);
    PrimeDividesExponent(c, (a.g * b.g) * e.g, (a.q * b.q) * e.q, k, d);
    ProductOrder(a.g * b.g, a.q * b.q, c.g, c.q);
    PrimeDividesExponent(e, (a.g * b.g) * c.g, (a.q * b.q) * c.q, k, d);
    ProductDivides(c.q, e.q, k);
    ProductDivides(b.q, c.q * e.q, k);
    ProductDivides(a.q, b.q * (c.q * e.q), k);
  }

  lemma TooLarge(m: int, d: int)
    requires FACTOR <= m && FACTOR <= d
    ensures m * d > P
  {
    assert (m - FACTOR) * d >= 0;
  }

  /** The audit-field modulus 2^61 - 1 is prime. */
  lemma AuditModulusIsPrime()
    ensures IsPrime(P)
  {
    var a := Order61();
    var b := Order151();
    var c := Order331();
    var e := Order1321();
    forall d | 1 < d < P ensures P % d != 0 {
      if P % d == 0 {
        var m := P / d;
        assert P == m * d;
        assert m > 1 by { if m <= 1 { NonzeroMultiple(1 - m, d); } }
        DividesIntro(m, P, d);
        Pocklington(a, b, c, e, d);
        Pocklington(a, b, c, e, m);
        TooLarge(m, d);
        assert false;
      }
    }
  }
}
