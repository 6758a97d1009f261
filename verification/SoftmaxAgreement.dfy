/**
 * Two integer softmaxes: crates/pwm-core/src/predictor.rs divides truncating toward
 * zero, the Python reference floors. On which tables they agree, exactly.
 */
module SoftmaxAgreement {
  import opened Wrappers
  import opened Arith
  import opened Kernels
  import IF = IntegerForward

  // ------------------------------------------------------------------- two divisions

  lemma SameSignDivides(a: int, b: int)
    requires b != 0 && (a == 0 || (a > 0 <==> b > 0))
    ensures TruncDiv(a, b) == IF.FloorDiv(a, b)
  {
  }

  lemma SmallQuotient(a: int, b: int)
    requires 0 < a < b
    ensures a / b == 0 && (-a) / b == -1
  {
    ModUnique(a, b, 0, a);
    ModUnique(-a, b, -1, b - a);
  }

  lemma OppositeSignDiffers(a: int, b: int)
    requires (a < 0 < -a < b) || (b < -a < 0 < a)
    ensures TruncDiv(a, b) == 0 && IF.FloorDiv(a, b) == -1
  {
    if a < 0 { SmallQuotient(-a, b); } else { SmallQuotient(a, -b); }
  }

  // -------------------------------------------------------------------- the condition

  /**
   * The entries a softmax can read: scores are taken relative to their maximum, so the
   * argument is at most 0, and 0 itself is always read.
   */
  function Reached(t: ActivationTable): (r: seq<int>)
    ensures t.Eval(0).Some? ==> |r| == 1 - t.lo && forall x :: t.lo <= x <= 0 ==> t.Eval(x) == Some(r[x - t.lo])
    ensures t.Eval(0).None? ==> r == []
  {
    if t.Eval(0).Some? then t.outputs[..1 - t.lo] else []
  }

  predicate AllNonneg(s: seq<int>) { forall i :: 0 <= i < |s| ==> s[i] >= 0 }

  predicate AllNonpos(s: seq<int>) { forall i :: 0 <= i < |s| ==> s[i] <= 0 }

  /** The entries read have one sign and the scale is nonnegative, or one of the two is zero throughout. */
  predicate SafeEntries(r: seq<int>, one: int) {
    || one == 0
    || (one > 0 && (AllNonneg(r) || AllNonpos(r)))
    || (AllNonneg(r) && AllNonpos(r))
  }

  predicate SoftmaxSafe(t: ActivationTable, one: int) { SafeEntries(Reached(t), one) }

  // ------------------------------------------------------------------------ agreement

  lemma {:induction false} SumSign(a: seq<int>, n: nat)
    requires n <= |a|
    ensures (forall i :: 0 <= i < n ==> a[i] >= 0) ==> SumN(a, n) >= 0
    ensures (forall i :: 0 <= i < n ==> a[i] <= 0) ==> SumN(a, n) <= 0
  {
    if n != 0 { SumSign(a, n - 1); }
  }

  lemma ScaledSign(e: int, one: int)
    requires one >= 0
    ensures e >= 0 ==> e * one >= 0
    ensures e <= 0 ==> e * one <= 0
  {
  }

  /** Shares of a nonzero total, for entries that are safe themselves. */
  lemma SharesAgree(exps: seq<int>, one: int, total: int)
    requires SafeEntries(exps, one) && total == Sum(exps) != 0
    ensures Probs(exps, one, total)
         == seq(|exps|, j requires 0 <= j < |exps| => IF.FloorDiv(exps[j] * one, total))
  {
    hide TruncDiv, IF.FloorDiv;
    SumSign(exps, |exps|);
    forall i | 0 <= i < |exps| ensures TruncDiv(exps[i] * one, total) == IF.FloorDiv(exps[i] * one, total) {
      if one >= 0 { ScaledSign(exps[i], one); }
      SameSignDivides(exps[i] * one, total);
    }
  }

  lemma ReadIsSafe(row: seq<int>, t: ActivationTable, one: int)
    requires |row| > 0 && SoftmaxSafe(t, one) && EvalAll(t, Shifted(row)).Some?
    ensures SafeEntries(EvalAll(t, Shifted(row)).value, one)
  {
    var s := Shifted(row);
    var exps := EvalAll(t, s).value;
    var top := ArgMax(row);
    EvalAllAt(t, s, top);
    assert s[top] == 0;
    hide EvalAll, SumN;
    forall i | 0 <= i < |exps| ensures t.lo <= s[i] <= 0 && exps[i] == Reached(t)[s[i] - t.lo] {
      EvalAllAt(t, s, i);
      assert s[i] == row[i] - Max(row);
    }
  }

  lemma Agree(row: seq<int>, t: ActivationTable, one: int)
    requires |row| > 0 && SoftmaxSafe(t, one)
    ensures Softmax(row, t, one) == IF.SoftmaxRow(row, t, one)
  {
    var shifted := seq(|row|, j requires 0 <= j < |row| => row[j] - Max(row));
    assert shifted == Shifted(row);
    hide EvalAll, Shifted, Probs, Sum, IF.FloorDiv;
    var exps := EvalAll(t, Shifted(row));
    if exps.Some? && Sum(exps.value) != 0 {
      ReadIsSafe(row, t, one);
      SharesAgree(exps.value, one, Sum(exps.value));
    }
  }

  // --------------------------------------------------------------------- disagreement

  lemma {:induction false} SumTail(a: seq<int>, b: int, n: nat)
    requires 2 <= n <= |a| && forall i :: 2 <= i < n ==> a[i] == b
    ensures SumN(a, n) == a[0] + a[1] + (n - 2) * b
  {
    if n > 2 {
      SumTail(a, b, n - 1);
      assert (n - 3) * b + b == (n - 2) * b;
    } else {
      assert SumN(a, 1) == SumN(a, 0) + a[0];
    }
  }

  /** The score row 0, x, y, y, ...: one odd entry against a total of the other sign. */
  function Lopsided(x: int, y: int, n: nat): (s: seq<int>)
    ensures |s| == n + 2
  {
    [0, x] + seq(n, _ => y)
  }

  lemma LopsidedTotal(z: int, a: int, b: int, n: int, bound: int)
    requires b != 0 && bound >= 0 && n == Mag(z) + Mag(a) + bound + 1
    ensures b > 0 ==> z + a + n * b > bound
    ensures b < 0 ==> z + a + n * b < -bound
  {
    if b > 0 {
      MulMono(1, b, n);
      assert z + a >= -(Mag(z) + Mag(a)) && n * b >= n;
    } else {
      MulMono(b, -1, n);
      assert z + a <= Mag(z) + Mag(a) && n * b <= -n;
    }
  }

  lemma LopsidedShift(x: int, y: int, n: nat)
    requires x <= 0 && y <= 0
    ensures Shifted(Lopsided(x, y, n)) == Lopsided(x, y, n)
  {
    var row := Lopsided(x, y, n);
    assert Max(row) == 0 by { assert row[0] == 0; }
  }

  /** What softmax reads on such a row. */
  lemma LopsidedExps(t: ActivationTable, x: int, y: int, n: nat) returns (exps: seq<int>)
    requires t.Eval(0).Some? && t.lo <= x <= 0 && t.lo <= y <= 0
    ensures EvalAll(t, Shifted(Lopsided(x, y, n))) == Some(exps) && |exps| == n + 2
    ensures exps[1] == Reached(t)[x - t.lo]
    ensures Sum(exps) == Reached(t)[-t.lo] + exps[1] + n * Reached(t)[y - t.lo]
  {
    var row := Lopsided(x, y, n);
    LopsidedShift(x, y, n);
    hide EvalAll, Shifted, SumN;
    EvalAllSucceeds(t, row);
    exps := EvalAll(t, row).value;
    forall i | 0 <= i < |exps| ensures t.Eval(row[i]) == Some(exps[i]) {
      EvalAllAt(t, row, i);
    }
    SumTail(exps, Reached(t)[y - t.lo], n + 2);
  }

  /** An entry and a total of opposite signs: truncation and flooring differ. */
  lemma Differ(t: ActivationTable, one: int, x: int, y: int) returns (row: seq<int>)
    requires t.Eval(0).Some? && t.lo <= x <= 0 && t.lo <= y <= 0
    requires var a, b := Reached(t)[x - t.lo] * one, Reached(t)[y - t.lo]; a < 0 < b || b < 0 < a
    ensures |row| > 0 && Softmax(row, t, one) != IF.SoftmaxRow(row, t, one)
  {
    var z, a, b := Reached(t)[-t.lo], Reached(t)[x - t.lo], Reached(t)[y - t.lo];
    var n := Mag(z) + Mag(a) + Mag(a * one) + 1;
    row := Lopsided(x, y, n);
    var exps := LopsidedExps(t, x, y, n);
    hide Lopsided, Shifted, EvalAll, Reached, Sum, TruncDiv, IF.FloorDiv;
    LopsidedTotal(z, a, b, n, Mag(a * one));
    OppositeSignDiffers(exps[1] * one, Sum(exps));
    assert Softmax(row, t, one).value[1] == 0 && IF.SoftmaxRow(row, t, one).value[1] == -1;
  }

  lemma OppositeSigns(a: int, one: int)
    ensures one > 0 && a < 0 ==> a * one < 0
    ensures one < 0 && a > 0 ==> a * one < 0
    ensures one < 0 && a < 0 ==> a * one > 0
  {
  }

  /** Where the condition fails, two entries are read whose signs clash. */
  lemma Clash(t: ActivationTable, one: int) returns (x: int, y: int)
    requires !SoftmaxSafe(t, one)
    ensures t.Eval(0).Some? && t.lo <= x <= 0 && t.lo <= y <= 0
    ensures var a, b := Reached(t)[x - t.lo] * one, Reached(t)[y - t.lo]; a < 0 < b || b < 0 < a
  {
    var r := Reached(t);
    if one > 0 {
      var i :| 0 <= i < |r| && r[i] < 0;
      var j :| 0 <= j < |r| && r[j] > 0;
      x, y := i + t.lo, j + t.lo;
      OppositeSigns(r[i], one);
    } else {
      var i :| 0 <= i < |r| && r[i] != 0;
      x, y := i + t.lo, i + t.lo;
      OppositeSigns(r[i], one);
    }
  }

  /** The two softmaxes agree on every row, errors included, exactly on the safe tables and scales. */
  lemma AgreeIff(t: ActivationTable, one: int)
    ensures SoftmaxSafe(t, one)
       <==> forall row: seq<int> :: |row| > 0 ==> Softmax(row, t, one) == IF.SoftmaxRow(row, t, one)
  {
    if SoftmaxSafe(t, one) {
      forall row: seq<int> | |row| > 0 ensures Softmax(row, t, one) == IF.SoftmaxRow(row, t, one) {
        Agree(row, t, one);
      }
    } else {
      var x, y := Clash(t, one);
      var row := Differ(t, one, x, y);
    }
  }

  /** The tables the exporter writes: no negative entry, a nonnegative scale. */
  lemma NonnegativeIsSafe(t: ActivationTable, one: int)
    requires Nonnegative(t) && one >= 0
    ensures SoftmaxSafe(t, one)
  {
  }

  /** One negative entry is enough: exp(-1) = -1, exp(0) = 3, scores 0 and -1, scale 1. */
  lemma NegativeEntryDiffers()
    ensures var t := ActivationTable(0, -1, [-1, 3]);
            Softmax([0, -1], t, 1) == Some([1, 0]) && IF.SoftmaxRow([0, -1], t, 1) == Some([1, -1])
  {
    var t := ActivationTable(0, -1, [-1, 3]);
    var row := [0, -1];
    assert Max(row) == 0 by { assert row[0] == 0; }
    assert Shifted(row) == row;
    EvalAllSucceeds(t, row);
    EvalAllAt(t, row, 0);
    EvalAllAt(t, row, 1);
    var exps := EvalAll(t, row).value;
    assert exps[0] == 3 && exps[1] == -1;
    assert SumN(exps, 1) == SumN(exps, 0) + exps[0] && SumN(exps, 2) == SumN(exps, 1) + exps[1];
    assert exps == [3, -1] && Sum(exps) == 2;
    assert Probs(exps, 1, 2) == [1, 0];
    assert seq(2, j requires 0 <= j < 2 => IF.FloorDiv(exps[j] * 1, 2)) == [1, -1];
  }
}
