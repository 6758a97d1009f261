/** `sort_by_key`: a stable sort of keyed values. */
module Sorting {
  import opened Wrappers

  type Keyed<T> = seq<(int, T)>

  /** Insert after every entry whose key is no larger. */
  function Insert<T>(x: (int, T), s: Keyed<T>): (r: Keyed<T>)
    ensures |r| == |s| + 1
  {
    if |s| == 0 then [x]
    else if s[|s| - 1].0 <= x.0 then s + [x]
    else Insert(x, s[..|s| - 1]) + [s[|s| - 1]]
  }

  function Sort<T>(s: Keyed<T>): (r: Keyed<T>)
    ensures |r| == |s|
  {
    if |s| == 0 then [] else Insert(s[|s| - 1], Sort(s[..|s| - 1]))
  }

  function Values<T>(s: Keyed<T>): (r: seq<T>)
    ensures |r| == |s| && forall i :: 0 <= i < |s| ==> r[i] == s[i].1
  {
    seq(|s|, i requires 0 <= i < |s| => s[i].1)
  }

  predicate Sorted<T>(s: Keyed<T>) {
    forall i, j :: 0 <= i <= j < |s| ==> s[i].0 <= s[j].0
  }

  /** Entries with equal keys are equal. */
  ghost predicate KeyDetermines<T(!new)>(s: Keyed<T>) {
    forall x, y :: x in s && y in s && x.0 == y.0 ==> x == y
  }

  lemma SplitLast<T>(s: Keyed<T>)
    requires |s| > 0
    ensures multiset(s) == multiset(s[..|s| - 1]) + multiset{s[|s| - 1]}
    ensures multiset(s[..|s| - 1]) == multiset(s) - multiset{s[|s| - 1]}
  {
    assert s == s[..|s| - 1] + [s[|s| - 1]];
  }

  lemma {:induction false} InsertEntries<T>(x: (int, T), s: Keyed<T>)
    ensures multiset(Insert(x, s)) == multiset(s) + multiset{x}
  {
    if |s| != 0 {
      SplitLast(s);
      InsertEntries(x, s[..|s| - 1]);
    }
  }

  lemma {:induction false} InsertSorted<T>(x: (int, T), s: Keyed<T>)
    requires Sorted(s)
    ensures Sorted(Insert(x, s))
  {
    if |s| != 0 && s[|s| - 1].0 > x.0 {
      var init, last := s[..|s| - 1], s[|s| - 1];
      InsertSorted(x, init);
      InsertEntries(x, init);
      var r := Insert(x, init);
      forall i | 0 <= i < |r| ensures r[i].0 <= last.0 {
        assert r[i] in multiset(r);
        if r[i] != x { assert r[i] in init; }
      }
    }
  }

  /** The result is sorted and holds exactly the given entries. */
  lemma {:induction false} SortSorts<T>(s: Keyed<T>)
    ensures Sorted(Sort(s)) && multiset(Sort(s)) == multiset(s)
  {
    if |s| != 0 {
      SortSorts(s[..|s| - 1]);
      InsertSorted(s[|s| - 1], Sort(s[..|s| - 1]));
      InsertEntries(s[|s| - 1], Sort(s[..|s| - 1]));
      SplitLast(s);
    }
  }

  /** When keys determine entries, the order of the input does not matter. */
  lemma SortUnique<T(!new)>(a: Keyed<T>, b: Keyed<T>)
    requires multiset(a) == multiset(b) && KeyDetermines(a)
    ensures Sort(a) == Sort(b)
  {
    SortSorts(a);
    SortSorts(b);
    forall x | x in Sort(a) ensures x in a { assert x in multiset(Sort(a)); }
    SortedUnique(Sort(a), Sort(b));
  }

  /** Sorted lists of the same entries end in the same entry. */
  lemma SameLast<T(!new)>(a: Keyed<T>, b: Keyed<T>)
    requires |a| > 0 && Sorted(a) && Sorted(b) && multiset(a) == multiset(b) && KeyDetermines(a)
    ensures |a| == |b| && a[|a| - 1] == b[|b| - 1]
  {
    assert |a| == |multiset(a)| == |multiset(b)| == |b|;
    var x, y := a[|a| - 1], b[|b| - 1];
    assert x in multiset(a) && y in multiset(b);
    assert x in b && y in a;
  }

  lemma DropLast<T(!new)>(s: Keyed<T>)
    requires |s| > 0 && Sorted(s)
    ensures Sorted(s[..|s| - 1]) && (KeyDetermines(s) ==> KeyDetermines(s[..|s| - 1]))
  {
  }

  lemma {:induction false} SortedUnique<T(!new)>(a: Keyed<T>, b: Keyed<T>)
    requires Sorted(a) && Sorted(b) && multiset(a) == multiset(b) && KeyDetermines(a)
    ensures a == b
    decreases |a|
  {
    hide Sorted, KeyDetermines;
    assert |a| == |multiset(a)| == |multiset(b)| == |b|;
    if |a| != 0 {
      var n := |a| - 1;
      SameLast(a, b);
      SplitLast(a);
      SplitLast(b);
      DropLast(a);
      DropLast(b);
      SortedUnique(a[..n], b[..n]);
      assert a == a[..n] + [a[n]] && b == b[..n] + [b[n]];
    }
  }

  // ---------------------------------------------------------------------- stability

  /** The first value under the key. */
  function First<T>(s: Keyed<T>, key: int): Option<T> {
    if |s| == 0 then None
    else
      var v := First(s[..|s| - 1], key);
      if v.Some? then v else if s[|s| - 1].0 == key then Some(s[|s| - 1].1) else None
  }

  lemma {:induction false} InsertStable<T>(x: (int, T), s: Keyed<T>, key: int)
    ensures First(Insert(x, s), key) == First(s + [x], key)
  {
    assert (s + [x])[..|s|] == s;
    if |s| != 0 && s[|s| - 1].0 > x.0 {
      var init, last := s[..|s| - 1], s[|s| - 1];
      InsertStable(x, init, key);
      assert (init + [x])[..|init|] == init;
      assert (Insert(x, init) + [last])[..|init| + 1] == Insert(x, init);
    }
  }

  /** Sorting is stable: under every key the first value stays the first. */
  lemma {:induction false} SortStable<T>(s: Keyed<T>, key: int)
    ensures First(Sort(s), key) == First(s, key)
  {
    if |s| != 0 {
      var init, last := s[..|s| - 1], s[|s| - 1];
      SortStable(init, key);
      InsertStable(last, Sort(init), key);
      assert (Sort(init) + [last])[..|init|] == Sort(init);
    }
  }
}
