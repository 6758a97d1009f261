/** Integer matrices as rows, and their row-major flattening into one buffer. */
module Matrix {
  import opened Arith

  type Mat = seq<seq<int>>

  predicate IsMat(m: Mat, rows: nat, width: nat) {
    |m| == rows && forall p :: 0 <= p < rows ==> |m[p]| == width
  }

  /** Rows laid end to end. */
  function Flatten(m: Mat): seq<int> {
    if m == [] then [] else Flatten(m[..|m| - 1]) + m[|m| - 1]
  }

  lemma {:induction false} FlattenSize(m: Mat, rows: nat, width: nat)
    requires IsMat(m, rows, width)
    ensures rows * width >= 0
    ensures |Flatten(m)| == rows * width
  {
    if rows != 0 {
      FlattenSize(m[..rows - 1], rows - 1, width);
      assert rows * width == (rows - 1) * width + width;
    }
  }

  /** `p < rows` puts row `p` inside the buffer. */
  lemma RowBounds(p: nat, rows: nat, width: nat)
    requires p < rows
    ensures 0 <= p * width && p * width + width == (p + 1) * width <= rows * width
  {
    assert (rows - p - 1) * width >= 0;
    assert (rows - p - 1) * width == rows * width - p * width - width;
  }

  /** Row `p` sits at offset `p * width`. */
  lemma {:induction false} FlattenRow(m: Mat, rows: nat, width: nat, p: nat)
    requires IsMat(m, rows, width) && p < rows
    ensures |Flatten(m)| == rows * width
    ensures 0 <= p * width && p * width + width <= rows * width
    ensures Flatten(m)[p * width..p * width + width] == m[p]
  {
    FlattenSize(m, rows, width);
    RowBounds(p, rows, width);
    FlattenSize(m[..rows - 1], rows - 1, width);
    assert (rows - 1) * width + width == rows * width;
    if p < rows - 1 {
      FlattenRow(m[..rows - 1], rows - 1, width, p);
      var f := Flatten(m[..rows - 1]);
      assert (f + m[rows - 1])[p * width..p * width + width] == f[p * width..p * width + width];
    }
  }

  lemma FlattenSnoc(m: Mat, row: seq<int>)
    ensures Flatten(m + [row]) == Flatten(m) + row
  {
    assert (m + [row])[..|m|] == m;
  }

  lemma FlattenPrefix(m: Mat, i: nat)
    requires i < |m|
    ensures Flatten(m[..i + 1]) == Flatten(m[..i]) + m[i]
  {
    assert m[..i + 1] == m[..i] + [m[i]];
    FlattenSnoc(m[..i], m[i]);
  }

  lemma {:induction false} FlattenAppend(a: Mat, b: Mat)
    ensures Flatten(a + b) == Flatten(a) + Flatten(b)
  {
    if b == [] {
      assert a + b == a;
    } else {
      var c, row := b[..|b| - 1], b[|b| - 1];
      FlattenAppend(a, c);
      assert a + b == (a + c) + [row];
      FlattenSnoc(a + c, row);
      assert b == c + [row];
      assert Flatten(a) + (Flatten(c) + row) == (Flatten(a) + Flatten(c)) + row;
    }
  }

  lemma FlattenCons(row: seq<int>, m: Mat)
    ensures Flatten([row] + m) == row + Flatten(m)
  {
    FlattenAppend([row], m);
    assert Flatten([row]) == Flatten([]) + row;
  }

  /** A buffer cut into `n` rows of `width`: the inverse of flattening. */
  function Rows(x: seq<int>, n: nat, width: nat): (m: Mat)
    requires |x| == n * width
    ensures IsMat(m, n, width)
  {
    if n == 0 then []
    else
      RowBounds(n - 1, n, width);
      Rows(x[..(n - 1) * width], n - 1, width) + [x[(n - 1) * width..]]
  }

  lemma {:induction false} FlattenRows(x: seq<int>, n: nat, width: nat)
    requires |x| == n * width
    ensures Flatten(Rows(x, n, width)) == x
  {
    assert Flatten([]) == [];
    hide Flatten;
    if n != 0 {
      RowBounds(n - 1, n, width);
      FlattenRows(x[..(n - 1) * width], n - 1, width);
      FlattenSnoc(Rows(x[..(n - 1) * width], n - 1, width), x[(n - 1) * width..]);
    }
  }

  lemma {:induction false} RowsFlatten(m: Mat, n: nat, width: nat)
    requires IsMat(m, n, width)
    ensures |Flatten(m)| == n * width && Rows(Flatten(m), n, width) == m
  {
    FlattenSize(m, n, width);
    if n != 0 {
      var init := m[..n - 1];
      RowsFlatten(init, n - 1, width);
      RowBounds(n - 1, n, width);
      assert Flatten(m)[..(n - 1) * width] == Flatten(init);
      assert Flatten(m)[(n - 1) * width..] == m[n - 1];
    }
  }
}
