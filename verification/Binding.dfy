/**
 * crates/pwm-core/src/audit.rs and block.rs: what the transcript behind a predictor
 * proof binds. Equal transcript states mean equal public inputs, input buffers and (for
 * op lists of equal length) ops, or a collision of the hash is computed from the data.
 */
module Binding {
  import opened Wrappers
  import opened Arith
  import opened Bytes
  import opened Codec
  import opened Transcripts
  import opened Commitments
  import opened Blocks
  import opened Predictor
  import Merkle
  import Field

  // --------------------------------------------------------------------------- ops

  lemma OptNatInjective(a: Option<nat>, b: Option<nat>)
    requires OptNat(a) == OptNat(b)
    ensures a == b
  {
  }

  lemma SameItems(a: Value, b: Value, n: nat)
    requires a == b && a.Case? && a.payload.List? && |a.payload.items| == n
    ensures b.Case? && b.payload.List? && |b.payload.items| == n
    ensures forall i :: 0 <= i < n ==> a.payload.items[i] == b.payload.items[i]
  {
  }

  /** The encoded fields determine the op. */
  lemma OpValueInjective(a: BlockOp, b: BlockOp)
    requires OpValue(a) == OpValue(b)
    ensures a == b
  {
    var x, y := OpValue(a), OpValue(b);
    SameItems(x, y, |x.payload.items|);
    assert x.tag == y.tag;
    match a {
      case Linear(_, _, bias, _, _, out) => OptNatInjective(bias, b.biasId); IntsInjective(out, b.out);
      case Concat(_, ins, _, out) => IntsInjective(ins, b.inBufs); IntsInjective(out, b.out);
      case BatchedLinear(_, _, bias, _, _, out, _) => OptNatInjective(bias, b.biasId); IntsInjective(out, b.out);
      case _ => IntsInjective(a.out, b.out);
    }
  }

  predicate OpsFit(ops: seq<BlockOp>) {
    forall i :: 0 <= i < |ops| ==> OpFits(ops[i])
  }

  lemma LeafInputInjective(a: BlockOp, b: BlockOp)
    requires OpFits(a) && OpFits(b) && LeafInput(a) == LeafInput(b)
    ensures a == b
  {
    assert LeafInput(a)[16..] == Enc(BLOCK_OP, OpValue(a)) && LeafInput(b)[16..] == Enc(BLOCK_OP, OpValue(b));
    EncInjective(BLOCK_OP, OpValue(a), OpValue(b));
    OpValueInjective(a, b);
  }

  /** Different ops with the same leaves: the last position at which they differ. */
  function LeavesClash(h: HashFn, a: seq<BlockOp>, b: seq<BlockOp>): (c: Pair)
    requires |a| == |b| && a != b && OpsFit(a) && OpsFit(b) && Leaves(h, a) == Leaves(h, b)
    ensures c.Collides(h)
    decreases |a|
  {
    var n := |a| - 1;
    assert Leaves(h, a)[n] == Leaf(h, a[n]) && Leaves(h, b)[n] == Leaf(h, b[n]);
    if a[n] != b[n] then
      assert LeafInput(a[n]) != LeafInput(b[n]) by {
        if LeafInput(a[n]) == LeafInput(b[n]) { LeafInputInjective(a[n], b[n]); }
      }
      Pair(LeafInput(a[n]), LeafInput(b[n]))
    else
      assert a[..n] != b[..n] by { if a[..n] == b[..n] { SameLists(a, b); } }
      assert Leaves(h, a[..n]) == Leaves(h, a)[..n] && Leaves(h, b[..n]) == Leaves(h, b)[..n];
      LeavesClash(h, a[..n], b[..n])
  }

  /** The block root binds the ops at equal length. */
  function BlockRootClash(h: HashFn, a: seq<BlockOp>, b: seq<BlockOp>): (c: Pair)
    requires |a| == |b| && a != b && OpsFit(a) && OpsFit(b) && BlockRoot(h, a) == BlockRoot(h, b)
    ensures c.Collides(h)
  {
    if Leaves(h, a) == Leaves(h, b) then LeavesClash(h, a, b)
    else Merkle.RootClash(h, NodeTag(), Leaves(h, a), Leaves(h, b))
  }

  /** Across lengths it does not: duplicating the last of three ops keeps the root. */
  lemma BlockRootPads(h: HashFn, a: BlockOp, b: BlockOp, c: BlockOp)
    ensures BlockRoot(h, [a, b, c]) == BlockRoot(h, [a, b, c, c])
  {
    assert Leaves(h, [a, b, c]) == [Leaf(h, a), Leaf(h, b), Leaf(h, c)];
    assert Leaves(h, [a, b, c, c]) == [Leaf(h, a), Leaf(h, b), Leaf(h, c), Leaf(h, c)];
    Merkle.OddLevelPads(h, NodeTag(), Leaf(h, a), Leaf(h, b), Leaf(h, c));
  }

  // ------------------------------------------------------------------------ inputs

  /** Buffer ids are u32 and values i64. */
  predicate InputsFit(inputs: Inputs) {
    forall i :: 0 <= i < |inputs| ==>
      && inputs[i].0 < TWO32
      && 8 * |inputs[i].1| < Field.TWO64
      && forall j :: 0 <= j < |inputs[i].1| ==> Field.FitsI64(inputs[i].1[j])
  }

  lemma {:induction false} ValueBytesSize(v: seq<int>)
    ensures |ValueBytes(v)| == 8 * |v|
  {
    if |v| != 0 { ValueBytesSize(v[..|v| - 1]); }
  }

  lemma {:induction false} ValueBytesInjective(v: seq<int>, w: seq<int>)
    requires ValueBytes(v) == ValueBytes(w)
    requires forall j :: 0 <= j < |v| ==> Field.FitsI64(v[j])
    requires forall j :: 0 <= j < |w| ==> Field.FitsI64(w[j])
    ensures v == w
  {
    ValueBytesSize(v);
    ValueBytesSize(w);
    if |v| != 0 {
      var n := |v| - 1;
      ValueBytesSize(v[..n]);
      ValueBytesSize(w[..n]);
      Pieces(ValueBytes(v[..n]), LE(v[n], 8), ValueBytes(w[..n]), LE(w[n], 8));
      WordFits();
      LEInjective(v[n], w[n], 8);
      ValueBytesInjective(v[..n], w[..n]);
      SameLists(v, w);
    }
  }

  lemma {:induction false} InputEntriesSized(inputs: Inputs)
    requires InputsFit(inputs)
    ensures AllSized(InputEntries(inputs)) && |InputEntries(inputs)| == 2 * |inputs|
  {
    if |inputs| != 0 {
      var n := |inputs| - 1;
      InputEntriesSized(inputs[..n]);
      ValueBytesSize(inputs[n].1);
    }
  }

  /** The last two absorbs are the last buffer's. */
  lemma LastEntries(inputs: Inputs)
    requires |inputs| > 0 && InputsFit(inputs)
    ensures var n, x := |inputs| - 1, InputEntries(inputs);
            && |x| == 2 * n + 2 && x[..2 * n] == InputEntries(inputs[..n])
            && x[2 * n].data == LE(inputs[n].0, 8) && x[2 * n + 1].data == ValueBytes(inputs[n].1)
  {
    InputEntriesSized(inputs[..|inputs| - 1]);
  }

  lemma SameId(x: nat, y: nat)
    requires x < TWO32 && y < TWO32 && LE(x, 8) == LE(y, 8)
    ensures x == y
  {
    WordFits();
    LEInjective(x, y, 8);
  }

  lemma SameLastInput(a: Inputs, b: Inputs)
    requires |a| == |b| > 0 && InputsFit(a) && InputsFit(b) && InputEntries(a) == InputEntries(b)
    ensures var n := |a| - 1; a[n] == b[n] && InputEntries(a[..n]) == InputEntries(b[..n])
  {
    var n := |a| - 1;
    LastEntries(a);
    LastEntries(b);
    hide InputEntries, ValueBytes, LE;
    SameId(a[n].0, b[n].0);
    ValueBytesInjective(a[n].1, b[n].1);
  }

  lemma PrefixFits(a: Inputs)
    requires |a| > 0 && InputsFit(a)
    ensures InputsFit(a[..|a| - 1])
  {
  }

  lemma {:induction false} InputEntriesInjective(a: Inputs, b: Inputs)
    requires InputsFit(a) && InputsFit(b) && InputEntries(a) == InputEntries(b)
    ensures a == b
  {
    InputEntriesSized(a);
    InputEntriesSized(b);
    hide InputEntries, InputsFit;
    if |a| != 0 {
      PrefixFits(a);
      PrefixFits(b);
      SameLastInput(a, b);
      InputEntriesInjective(a[..|a| - 1], b[..|b| - 1]);
      SameLists(a, b);
    }
  }

  // -------------------------------------------------------------------- transcript

  /** What a predictor transcript is built from. */
  datatype Statement = Statement(input: PublicInput, ops: seq<BlockOp>, inputs: Inputs) {
    predicate Fits() { PublicFits(input) && OpsFit(ops) && InputsFit(inputs) }
  }

  lemma EntriesSized(h: HashFn, s: Statement)
    requires s.Fits()
    ensures var es := PredictorEntries(h, s.input, s.ops, s.inputs);
            && AllSized(es) && |es| == 3 + 2 * |s.inputs|
            && es[1].data == PublicDigest(h, s.input) && es[2].data == BlockRoot(h, s.ops)
            && es[3..] == InputEntries(s.inputs)
  {
    InputEntriesSized(s.inputs);
    hide PublicFits, OpsFit, InputsFit, PublicDigest, BlockRoot, InputEntries;
    ThreeThenRest(InitEntries(h, s.input), Entry(Ascii("block_root"), BlockRoot(h, s.ops)), InputEntries(s.inputs));
  }

  lemma ThreeThenRest(two: seq<Entry>, third: Entry, rest: seq<Entry>)
    requires |two| == 2 && AllSized(two) && third.Sized() && AllSized(rest)
    ensures var es := two + ([third] + rest);
            AllSized(es) && |es| == 3 + |rest| && es[1] == two[1] && es[2] == third && es[3..] == rest
  {
  }

  /**
   * Commitment binding: two different statements with equally many ops and the same
   * predictor transcript yield a collision of the hash, computed from the statements.
   */
  function PredictorClash(h: HashFn, s: Statement, t: Statement): (c: Pair)
    requires s.Fits() && t.Fits() && s != t && |s.ops| == |t.ops|
    requires PredictorTranscript(h, s.input, s.ops, s.inputs) == PredictorTranscript(h, t.input, t.ops, t.inputs)
    ensures c.Collides(h)
  {
    EntriesSized(h, s);
    EntriesSized(h, t);
    var a, b := PredictorEntries(h, s.input, s.ops, s.inputs), PredictorEntries(h, t.input, t.ops, t.inputs);
    if a != b then ChainClash(h, Ascii("pwm.fs.v1"), a, b)
    else if s.input != t.input then
      assert PublicDigest(h, s.input) == PublicDigest(h, t.input);
      assert DigestInput(s.input) != DigestInput(t.input) by {
        if DigestInput(s.input) == DigestInput(t.input) { DigestInputInjective(s.input, t.input); }
      }
      Pair(DigestInput(s.input), DigestInput(t.input))
    else if s.ops != t.ops then
      assert BlockRoot(h, s.ops) == BlockRoot(h, t.ops);
      BlockRootClash(h, s.ops, t.ops)
    else
      assert s.inputs != t.inputs;
      assert InputEntries(s.inputs) == InputEntries(t.inputs);
      assert false by { InputEntriesInjective(s.inputs, t.inputs); }
      Pair([], [])
  }

  /** Not bound: the lists of declared inputs and the output buffer are not absorbed. */
  lemma WiringNotAbsorbed(h: HashFn, a: PredictorArtifact, inputBufs: seq<nat>, outputBuf: nat)
    ensures var b := a.(block := a.block.(inputBufs := inputBufs, outputBuf := outputBuf));
            && TranscriptOf(h, b) == TranscriptOf(h, a)
            && ArchitectureCommitment(h, b.block) == ArchitectureCommitment(h, a.block)
  {
  }
}
