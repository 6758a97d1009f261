/**
 * crates/pwm-core/src/planning.rs: exact goal cost, argmin and top-k, and the checkers
 * the verifier runs on a claimed selection.
 */
module Selection {
  import opened Wrappers
  import opened Arith
  import opened FiniteSets
  import opened Sorting
  import Field

  // -------------------------------------------------------------------------- cost

  predicate FitsI128(x: int) {
    -0x8000_0000_0000_0000_0000_0000_0000_0000 <= x < 0x8000_0000_0000_0000_0000_0000_0000_0000
  }

  function Checked(x: int): Option<int> {
    if FitsI128(x) then Some(x) else None
  }

  function Square(d: int): (s: int)
    ensures s >= 0
  {
    d * d
  }

  /** The sum of squared differences over the common length. */
  function SquaredError(a: seq<int>, b: seq<int>, n: nat): (s: int)
    requires n <= |a| && n <= |b|
    ensures s >= 0
  {
    if n == 0 then 0
    else SquaredError(a, b, n - 1) + Square(a[n - 1] - b[n - 1])
  }

  function Distance(a: seq<int>, b: seq<int>): int {
    SquaredError(a, b, Min(|a|, |b|))
  }

  /** Entrywise differences over the common length. */
  function Difference(a: seq<int>, b: seq<int>): (d: seq<int>)
    ensures |d| == Min(|a|, |b|) && forall i :: 0 <= i < |d| ==> d[i] == a[i] - b[i]
  {
    seq(Min(|a|, |b|), i requires 0 <= i < |a| && i < |b| => a[i] - b[i])
  }

  lemma {:induction false} SquaredErrorIsDot(a: seq<int>, b: seq<int>, d: seq<int>, n: nat)
    requires n <= |a| && n <= |b| && n <= |d| && forall i :: 0 <= i < n ==> d[i] == a[i] - b[i]
    ensures SquaredError(a, b, n) == DotN(d, d, n)
  {
    if n > 0 { SquaredErrorIsDot(a, b, d, n - 1); }
  }

  /** The distance is the squared norm of the difference. */
  lemma DistanceIsNorm(a: seq<int>, b: seq<int>)
    ensures Distance(a, b) == Dot(Difference(a, b), Difference(a, b))
  {
    SquaredErrorIsDot(a, b, Difference(a, b), Min(|a|, |b|));
  }

  lemma {:induction false} SquaredErrorGrows(a: seq<int>, b: seq<int>, m: nat, n: nat)
    requires m <= n <= |a| && n <= |b|
    ensures SquaredError(a, b, m) <= SquaredError(a, b, n)
  {
    hide Square;
    if m < n { SquaredErrorGrows(a, b, m, n - 1); }
  }

  /**
   * The cost is the exact squared distance when that fits an i64, and None otherwise:
   * neither a square nor a partial sum can overflow i128 on the way to a small total.
   */
  method MseCost(pred: seq<int>, goal: seq<int>) returns (r: Option<int>)
    ensures r == if Field.FitsI64(Distance(pred, goal)) then Some(Distance(pred, goal)) else None
  {
    hide Square;
    var n := Min(|pred|, |goal|);
    var acc := 0;
    for i := 0 to n
      invariant acc == SquaredError(pred, goal, i) && FitsI128(acc)
    {
      var d := pred[i] - goal[i];
      SquaredErrorGrows(pred, goal, i + 1, n);
      var square := Checked(Square(d));
      if square.None? { return None; }
      var sum := Checked(acc + square.value);
      if sum.None? { return None; }
      acc := sum.value;
    }
    r := if Field.FitsI64(acc) then Some(acc) else None;
  }

  /** The value `MseCost` computes. */
  function Mse(pred: seq<int>, goal: seq<int>): Option<int> {
    if Field.FitsI64(Distance(pred, goal)) then Some(Distance(pred, goal)) else None
  }

  // ------------------------------------------------------------------------ argmin

  /** Index `i` holds `c`, nothing is lower, and nothing before it ties. */
  predicate FirstMin(costs: seq<int>, i: nat, c: int) {
    && i < |costs| && costs[i] == c
    && (forall j :: 0 <= j < |costs| ==> c <= costs[j])
    && (forall j :: 0 <= j < i ==> c < costs[j])
  }

  method ArgMin(costs: seq<int>) returns (r: Option<(nat, int)>)
    ensures r.None? <==> |costs| == 0
    ensures r.Some? ==> FirstMin(costs, r.value.0, r.value.1)
  {
    var best: Option<(nat, int)> := None;
    for i := 0 to |costs|
      invariant best.None? <==> i == 0
      invariant best.Some? ==> FirstMin(costs[..i], best.value.0, best.value.1)
    {
      var c := costs[i];
      if best.None? || c < best.value.1 {
        best := Some((i, c));
      }
    }
    assert costs[..|costs|] == costs;
    r := best;
  }

  lemma FirstMinUnique(costs: seq<int>, i: nat, c: int, j: nat, d: int)
    requires FirstMin(costs, i, c) && FirstMin(costs, j, d)
    ensures i == j && c == d
  {
  }

  datatype ArgminError =
    | IndexOutOfRange(index: nat, count: nat)
    | SelectedCostMismatch
    | NotMinimum(index: nat)
    | TieBreakViolation(index: nat)
    | Empty

  /** Candidate `i` beats the selection, or ties with it from an earlier place. */
  predicate Beats(costs: seq<int>, selected: nat, cost: int, i: nat)
    requires i < |costs|
  {
    costs[i] < cost || (i < selected && costs[i] == cost)
  }

  /**
   * The checker accepts exactly the first minimum: what `ArgMin` returns and nothing else.
   * Otherwise the first candidate that beats the selection is named.
   */
  method VerifyArgmin(costs: seq<int>, selected: nat, cost: int) returns (r: Result<(), ArgminError>)
    ensures r.Ok? <==> FirstMin(costs, selected, cost)
    ensures |costs| == 0 ==> r == Err(Empty)
    ensures 0 < |costs| <= selected ==> r == Err(IndexOutOfRange(selected, |costs|))
    ensures selected < |costs| && costs[selected] != cost ==> r == Err(SelectedCostMismatch)
    ensures selected < |costs| && costs[selected] == cost && r.Err? ==>
              exists i :: 0 <= i < |costs| && Beats(costs, selected, cost, i)
                && (forall j :: 0 <= j < i ==> !Beats(costs, selected, cost, j))
                && r == Err(if costs[i] < cost then NotMinimum(i) else TieBreakViolation(i))
  {
    if |costs| == 0 { return Err(Empty); }
    if selected >= |costs| { return Err(IndexOutOfRange(selected, |costs|)); }
    if costs[selected] != cost { return Err(SelectedCostMismatch); }
    for i := 0 to |costs|
      invariant forall j :: 0 <= j < i ==> cost <= costs[j] && (j < selected ==> cost < costs[j])
      invariant forall j :: 0 <= j < i ==> !Beats(costs, selected, cost, j)
    {
      assert costs[i] < cost || (i < selected && costs[i] == cost) ==> Beats(costs, selected, cost, i);
      if costs[i] < cost { return Err(NotMinimum(i)); }
      if i < selected && costs[i] == cost { return Err(TieBreakViolation(i)); }
    }
    r := Ok(());
  }

  // ------------------------------------------------------------------------- top-k

  /** (cost, index) order. */
  predicate Before(costs: seq<int>, i: nat, j: nat)
    requires i < |costs| && j < |costs|
  {
    costs[i] < costs[j] || (costs[i] == costs[j] && i < j)
  }

  function Indexed(costs: seq<int>): (p: Keyed<nat>)
    ensures |p| == |costs| && forall i :: 0 <= i < |costs| ==> p[i] == (costs[i], i)
  {
    seq(|costs|, i requires 0 <= i < |costs| => (costs[i], i))
  }

  /** All indices in (cost, index) order. */
  function Order(costs: seq<int>): (o: seq<nat>)
    ensures |o| == |costs|
  {
    Sorting.Values(Sort(Indexed(costs)))
  }

  function TopK(costs: seq<int>, k: nat): (t: seq<nat>)
    ensures |t| == Min(k, |costs|)
  {
    Order(costs)[..Min(k, |costs|)]
  }

  /** Ties are broken by index: later entries never precede equal earlier ones. */
  ghost predicate Lexicographic(p: Keyed<nat>) {
    forall i, j :: 0 <= i < j < |p| ==> p[i].0 < p[j].0 || (p[i].0 == p[j].0 && p[i].1 < p[j].1)
  }

  lemma {:induction false} InsertLexicographic(x: (int, nat), s: Keyed<nat>)
    requires Lexicographic(s) && forall i :: 0 <= i < |s| ==> s[i].1 < x.1
    ensures Lexicographic(Insert(x, s))
    ensures forall y :: y in Insert(x, s) ==> y in s || y == x
  {
    if |s| != 0 && s[|s| - 1].0 > x.0 {
      var init, last := s[..|s| - 1], s[|s| - 1];
      InsertLexicographic(x, init);
      var r := Insert(x, init);
      forall i | 0 <= i < |r| ensures r[i].0 < last.0 || (r[i].0 == last.0 && r[i].1 < last.1) {
        assert r[i] in r;
        if r[i] != x {
          var k :| 0 <= k < |init| && init[k] == r[i];
          assert s[k] == r[i];
        }
      }
    }
  }

  /** An entry is an index below `n` with its cost. */
  ghost predicate IsEntry(costs: seq<int>, y: (int, nat), n: nat) {
    y.1 < n && y.1 < |costs| && y == (costs[y.1], y.1)
  }

  /** The first `n` indices, sorted. */
  ghost predicate SortedPrefix(costs: seq<int>, n: nat, s: Keyed<nat>) {
    Lexicographic(s) && forall i :: 0 <= i < |s| ==> IsEntry(costs, s[i], n)
  }

  lemma InsertNext(costs: seq<int>, n: nat, s: Keyed<nat>)
    requires n < |costs| && SortedPrefix(costs, n, s)
    ensures SortedPrefix(costs, n + 1, Insert((costs[n], n), s))
  {
    var r := Insert((costs[n], n), s);
    InsertLexicographic((costs[n], n), s);
    forall i | 0 <= i < |r| ensures IsEntry(costs, r[i], n + 1) { assert r[i] in r; }
  }

  lemma SortLexicographic(costs: seq<int>, n: nat)
    requires n <= |costs|
    ensures SortedPrefix(costs, n, Sort<nat>(Indexed(costs)[..n]))
  {
    var p: Keyed<nat> := Indexed(costs);
    for i := 0 to n
      invariant SortedPrefix(costs, i, Sort<nat>(p[..i]))
    {
      hide SortedPrefix, Insert;
      InsertNext(costs, i, Sort<nat>(p[..i]));
      assert p[..i + 1][..i] == p[..i];
    }
  }

  /** `Order` lists every index once, each before all later ones. */
  lemma OrderFacts(costs: seq<int>)
    ensures forall i :: 0 <= i < |costs| ==> Order(costs)[i] < |costs|
    ensures forall i, j :: 0 <= i < j < |costs| ==> Before(costs, Order(costs)[i], Order(costs)[j])
    ensures forall t: nat :: t < |costs| ==> t in Order(costs)
  {
    var n := |costs|;
    var p: Keyed<nat> := Indexed(costs);
    assert p[..n] == p;
    SortLexicographic(costs, n);
    SortSorts(p);
    var s: Keyed<nat> := Sort<nat>(p);
    var o := Order(costs);
    forall i | 0 <= i < n ensures o[i] < n && s[i] == (costs[o[i]], o[i]) { assert s[i] in s; }
    forall t: nat | t < n ensures t in o {
      assert p[t] in multiset(p);
      assert p[t] in s;
      var i :| 0 <= i < |s| && s[i] == p[t];
      assert o[i] == t;
    }
  }

  ghost function Elements(s: seq<nat>): set<nat> { set x | x in s }

  /** Duplicate-free, in range, and ahead of everything not selected. */
  ghost predicate IsElite(costs: seq<int>, selected: seq<nat>, k: nat) {
    && |selected| == k
    && (forall i :: 0 <= i < k ==> selected[i] < |costs|)
    && (forall i, j :: 0 <= i < j < k ==> selected[i] != selected[j])
    && (forall s: nat, t: nat :: s < |costs| && t < |costs| && s in selected && t !in selected ==> Before(costs, s, t))
  }

  lemma {:induction false} DistinctSize(s: seq<nat>)
    requires forall i, j :: 0 <= i < j < |s| ==> s[i] != s[j]
    ensures |Elements(s)| == |s|
  {
    if |s| != 0 {
      var init := s[..|s| - 1];
      DistinctSize(init);
      assert s == init + [s[|s| - 1]];
      assert Elements(s) == Elements(init) + {s[|s| - 1]};
    } else {
      assert Elements(s) == {};
    }
  }

  lemma TopKDistinct(costs: seq<int>, k: nat)
    ensures |Elements(TopK(costs, k))| == |TopK(costs, k)|
    ensures Elements(TopK(costs, k)) <= Range(|costs|)
  {
    OrderFacts(costs);
    var t := TopK(costs, k);
    forall i, j | 0 <= i < j < |t| ensures t[i] != t[j] { assert Before(costs, Order(costs)[i], Order(costs)[j]); }
    DistinctSize(t);
  }

  /** Inside the first k, outside it: the former comes first. */
  lemma EliteFirst(costs: seq<int>, k: nat, s: nat, t: nat)
    requires s < |costs| && t < |costs| && s in TopK(costs, k) && t !in TopK(costs, k)
    ensures Before(costs, s, t)
  {
    OrderFacts(costs);
    var o := Order(costs);
    var i :| 0 <= i < |TopK(costs, k)| && TopK(costs, k)[i] == s;
    assert t in o;
    var j :| 0 <= j < |o| && o[j] == t;
    assert forall l :: 0 <= l < |TopK(costs, k)| ==> o[l] == TopK(costs, k)[l];
    assert o[i] == s;
  }

  /** A selection is elite exactly when, as a set, it is the first k in order. */
  lemma EliteIsTopK(costs: seq<int>, selected: seq<nat>, k: nat)
    requires |selected| == k && forall i :: 0 <= i < k ==> selected[i] < |costs|
    requires forall i, j :: 0 <= i < j < k ==> selected[i] != selected[j]
    ensures IsElite(costs, selected, k) <==> Elements(selected) == Elements(TopK(costs, k))
  {
    var elite := Elements(TopK(costs, k));
    if Elements(selected) == elite {
      forall s: nat, t: nat | s < |costs| && t < |costs| && s in selected && t !in selected
        ensures Before(costs, s, t)
      {
        assert s in elite && t !in elite;
        EliteFirst(costs, k, s, t);
      }
    } else if IsElite(costs, selected, k) {
      SwapExists(costs, selected, k);
      var s: nat, t: nat :| s in Elements(selected) - elite && t in elite - Elements(selected);
      assert t in Range(|costs|) by { TopKDistinct(costs, k); }
      EliteFirst(costs, k, t, s);
    }
  }

  /** Two different sets of one size differ both ways. */
  lemma SwapExists(costs: seq<int>, selected: seq<nat>, k: nat)
    requires |selected| == k && forall i :: 0 <= i < k ==> selected[i] < |costs|
    requires forall i, j :: 0 <= i < j < k ==> selected[i] != selected[j]
    requires Elements(selected) != Elements(TopK(costs, k))
    ensures exists s: nat, t: nat ::
              s in Elements(selected) - Elements(TopK(costs, k)) && t in Elements(TopK(costs, k)) - Elements(selected)
  {
    var a, b := Elements(selected), Elements(TopK(costs, k));
    DistinctSize(selected);
    TopKDistinct(costs, k);
    assert a <= Range(|costs|);
    SubsetSize(a, Range(|costs|));
    RangeSize(|costs|);
    assert |b| == |a|;
    if a <= b {
      StrictlySmaller(a, b);
    } else if b <= a {
      StrictlySmaller(b, a);
    } else {
      var s :| s in a && s !in b;
      var t :| t in b && t !in a;
      assert s in a - b && t in b - a;
    }
  }

  lemma StrictlySmaller(a: set<nat>, b: set<nat>)
    requires a <= b && a != b
    ensures |a| < |b|
  {
    var x :| x in b && x !in a;
    assert a <= b - {x};
    SubsetSize(a, b - {x});
  }

  datatype TopkError = WrongCount | SelectedOutOfRange | Duplicate | NotElite

  /** The first `n` selected indices are in range and distinct. */
  predicate CleanPrefix(costs: seq<int>, selected: seq<nat>, n: nat)
    requires n <= |selected|
  {
    && (forall j :: 0 <= j < n ==> selected[j] < |costs|)
    && (forall j, l :: 0 <= j < l < n ==> selected[j] != selected[l])
  }

  /** The checker accepts exactly the elite selections, in any order; the first bad index decides the error. */
  method VerifyTopK(costs: seq<int>, selected: seq<nat>, k: nat) returns (r: Result<(), TopkError>)
    ensures r.Ok? <==> IsElite(costs, selected, k)
    ensures |selected| != k ==> r == Err(WrongCount)
    ensures |selected| == k && CleanPrefix(costs, selected, k) && r.Err? ==> r == Err(NotElite)
    ensures |selected| == k && !CleanPrefix(costs, selected, k) ==>
              exists i :: 0 <= i < k && CleanPrefix(costs, selected, i) && !CleanPrefix(costs, selected, i + 1)
                && r == Err(if selected[i] >= |costs| then SelectedOutOfRange else Duplicate)
  {
    if |selected| != k { return Err(WrongCount); }
    var seen: set<nat> := {};
    for i := 0 to k
      invariant seen == Elements(selected[..i])
      invariant CleanPrefix(costs, selected, i)
    {
      var s := selected[i];
      if s >= |costs| {
        assert !CleanPrefix(costs, selected, i + 1);
        return Err(SelectedOutOfRange);
      }
      if s in seen {
        var j :| 0 <= j < i && selected[..i][j] == s;
        assert selected[j] == selected[i];
        assert !CleanPrefix(costs, selected, i + 1);
        return Err(Duplicate);
      }
      assert selected[..i + 1] == selected[..i] + [s];
      seen := seen + {s};
    }
    assert selected[..k] == selected;
    EliteIsTopK(costs, selected, k);
    var top := TopK(costs, k);
    var elite := set x | x in top;
    if seen != elite { return Err(NotElite); }
    r := Ok(());
  }
}
