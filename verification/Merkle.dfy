/**
 * The Merkle folds of crates/pwm-core/src/block.rs, trace.rs and commit.rs: a while
 * loop halves the level, duplicating an odd last node.
 */
module Merkle {
  import opened Arith
  import opened Bytes

  function Node(h: HashFn, tag: seq<Byte>, a: Digest, b: Digest): Digest {
    h(tag + a + b)
  }

  function HalfUp(n: nat): nat { (n + 1) / 2 }

  /** The next level up. */
  function Parents(h: HashFn, tag: seq<Byte>, level: seq<Digest>): (next: seq<Digest>)
    ensures |next| == HalfUp(|level|)
  {
    if |level| == 0 then []
    else if |level| == 1 then [Node(h, tag, level[0], level[0])]
    else [Node(h, tag, level[0], level[1])] + Parents(h, tag, level[2..])
  }

  function Root(h: HashFn, tag: seq<Byte>, level: seq<Digest>): Digest
    decreases |level|
  {
    if |level| == 0 then h(tag)
    else if |level| == 1 then level[0]
    else Root(h, tag, Parents(h, tag, level))
  }

  function From(level: seq<Digest>, i: nat): seq<Digest> {
    if i <= |level| then level[i..] else []
  }

  /** One turn of the inner loop: the pair at `i` becomes the next parent. */
  lemma ParentsStep(h: HashFn, tag: seq<Byte>, level: seq<Digest>, i: nat, next: seq<Digest>)
    requires i < |level|
    ensures var b := if i + 1 < |level| then level[i + 1] else level[i];
            next + Parents(h, tag, From(level, i))
            == (next + [Node(h, tag, level[i], b)]) + Parents(h, tag, From(level, i + 2))
  {
    var b := if i + 1 < |level| then level[i + 1] else level[i];
    var rest := level[i..];
    if |rest| > 1 { assert rest[2..] == level[i + 2..]; }
    assert Parents(h, tag, rest) == [Node(h, tag, level[i], b)] + Parents(h, tag, From(level, i + 2));
  }

  method ComputeRoot(h: HashFn, tag: seq<Byte>, leaves: seq<Digest>) returns (root: Digest)
    ensures root == Root(h, tag, leaves)
  {
    var level := leaves;
    if |level| == 0 {
      return h(tag);
    }
    while |level| > 1
      invariant |level| > 0
      invariant Root(h, tag, level) == Root(h, tag, leaves)
      decreases |level|
    {
      var next: seq<Digest> := [];
      var i := 0;
      while i < |level|
        invariant 0 <= i <= |level| + 1
        invariant next + Parents(h, tag, From(level, i)) == Parents(h, tag, level)
      {
        var a := level[i];
        var b := if i + 1 < |level| then level[i + 1] else level[i];
        ParentsStep(h, tag, level, i, next);
        next := next + [h(tag + a + b)];
        i := i + 2;
      }
      assert next + [] == next;
      level := next;
    }
    root := level[0];
  }

  lemma NodeInputsDiffer(tag: seq<Byte>, a: Digest, b: Digest, a': Digest, b': Digest)
    requires a != a' || b != b'
    ensures tag + a + b != tag + a' + b'
  {
    var t := |tag|;
    assert (tag + a + b)[t..t + 32] == a && (tag + a' + b')[t..t + 32] == a';
    assert (tag + a + b)[t + 32..] == b && (tag + a' + b')[t + 32..] == b';
  }

  /** Different levels of one length with the same parents: the colliding node. */
  function ParentsClash(h: HashFn, tag: seq<Byte>, a: seq<Digest>, b: seq<Digest>): (c: Pair)
    requires |a| == |b| && Parents(h, tag, a) == Parents(h, tag, b) && a != b
    ensures c.Collides(h)
    decreases |a|
  {
    if |a| == 1 then
      NodeInputsDiffer(tag, a[0], a[0], b[0], b[0]);
      assert Parents(h, tag, a)[0] == Node(h, tag, a[0], a[0]) && Parents(h, tag, b)[0] == Node(h, tag, b[0], b[0]);
      Pair(tag + a[0] + a[0], tag + b[0] + b[0])
    else
      assert Parents(h, tag, a)[0] == Node(h, tag, a[0], a[1]) && Parents(h, tag, b)[0] == Node(h, tag, b[0], b[1]);
      if a[0] != b[0] || a[1] != b[1] then
        NodeInputsDiffer(tag, a[0], a[1], b[0], b[1]);
        Pair(tag + a[0] + a[1], tag + b[0] + b[1])
      else
        assert Parents(h, tag, a)[1..] == Parents(h, tag, a[2..]) && Parents(h, tag, b)[1..] == Parents(h, tag, b[2..]);
        assert a == [a[0], a[1]] + a[2..] && b == [b[0], b[1]] + b[2..];
        ParentsClash(h, tag, a[2..], b[2..])
  }

  /** Different leaf lists of one length with the same root: the colliding node. */
  function RootClash(h: HashFn, tag: seq<Byte>, a: seq<Digest>, b: seq<Digest>): (c: Pair)
    requires |a| == |b| && Root(h, tag, a) == Root(h, tag, b) && a != b
    ensures c.Collides(h)
    decreases |a|
  {
    if Parents(h, tag, a) == Parents(h, tag, b) then ParentsClash(h, tag, a, b)
    else
      assert |a| > 1;
      RootClash(h, tag, Parents(h, tag, a), Parents(h, tag, b))
  }

  /** Across lengths the root does not bind: an odd level equals its padded form. */
  lemma OddLevelPads(h: HashFn, tag: seq<Byte>, a: Digest, b: Digest, c: Digest)
    ensures Root(h, tag, [a, b, c]) == Root(h, tag, [a, b, c, c])
  {
    var odd, even := [a, b, c], [a, b, c, c];
    assert odd[2..] == [c] && even[2..] == [c, c];
    assert Parents(h, tag, [c, c]) == Parents(h, tag, [c]) by { assert [c, c][2..] == []; }
  }
}
