/** Cardinalities of finite sets: ranges, images, bijections and products. */
module FiniteSets {

  lemma {:induction false} SubsetSize<T>(a: set<T>, b: set<T>)
    requires a <= b
    ensures |a| <= |b|
  {
    if a != {} {
      var x :| x in a;
      SubsetSize(a - {x}, b - {x});
    }
  }

  /** The integers in `[0, n)`. */
  ghost function Range(n: nat): (s: set<int>)
    ensures forall i :: i in s <==> 0 <= i < n
  {
    if n == 0 then {} else Range(n - 1) + {n - 1}
  }

  lemma {:induction false} RangeSize(n: nat)
    ensures |Range(n)| == n
  {
    if n != 0 { RangeSize(n - 1); }
  }

  /** `f(0), ..., f(n-1)` as a set. */
  ghost function Image(f: int -> int, n: nat): set<int> {
    if n == 0 then {} else Image(f, n - 1) + {f(n - 1)}
  }

  lemma {:induction false} ImageMember(f: int -> int, n: nat, y: int) returns (i: int)
    requires y in Image(f, n)
    ensures 0 <= i < n && f(i) == y
  {
    if y == f(n - 1) {
      i := n - 1;
    } else {
      i := ImageMember(f, n - 1, y);
    }
  }

  lemma {:induction false} ImageSize(f: int -> int, n: nat)
    requires forall i, j :: 0 <= i < j < n ==> f(i) != f(j)
    ensures |Image(f, n)| == n
  {
    if n != 0 {
      ImageSize(f, n - 1);
      if f(n - 1) in Image(f, n - 1) {
        var i := ImageMember(f, n - 1, f(n - 1));
        assert false;
      }
    }
  }

  /** An injection from `[0, n)` into `[0, d)` needs `n <= d`. */
  lemma Pigeonhole(f: int -> int, n: nat, d: nat)
    requires forall i :: 0 <= i < n ==> 0 <= f(i) < d
    requires forall i, j :: 0 <= i < j < n ==> f(i) != f(j)
    ensures n <= d
  {
    ImageSize(f, n);
    RangeSize(d);
    forall y | y in Image(f, n) ensures y in Range(d) {
      var i := ImageMember(f, n, y);
    }
    SubsetSize(Image(f, n), Range(d));
  }

  /** Sets in bijection have the same size. */
  lemma {:induction false} BijectionSize<S(!new), T(!new)>(a: set<S>, b: set<T>, f: S -> T, g: T -> S)
    requires forall x :: x in a ==> f(x) in b && g(f(x)) == x
    requires forall y :: y in b ==> g(y) in a && f(g(y)) == y
    ensures |a| == |b|
  {
    if a != {} {
      var x :| x in a;
      BijectionSize(a - {x}, b - {f(x)}, f, g);
    } else {
      assert forall y :: y in b ==> g(y) in a;
    }
  }
}
