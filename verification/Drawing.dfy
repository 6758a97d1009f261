/**
 * crates/pwm-core/src/transcript.rs: what a drawn challenge is. Byte by byte it is the
 * hash in counter mode, coordinate by coordinate a little-endian word modulo p, and every
 * vector over the audit field is drawn under some hash.
 */
module Drawing {
  import opened Arith
  import opened Bytes
  import opened Transcripts
  import Field

  // ----------------------------------------------------------------- the squeezed bytes

  /** "expand\0\0", the seed, and the counter: what the c-th block of a squeeze hashes. */
  function BlockInput(seed: Digest, c: nat): seq<Byte> {
    [101, 120, 112, 97, 110, 100, 0, 0] + seed + LE(c, 8)
  }

  lemma ExpandTag()
    ensures Ascii("expand") + Zero(2) == [101, 120, 112, 97, 110, 100, 0, 0]
  {
  }

  lemma ExpandStep(h: HashFn, seed: Digest, out: seq<Byte>, ctr: nat, n: nat)
    requires |out| < n
    ensures var take := Min(32, n - |out|);
            Expand(h, seed, out, ctr, n) == Expand(h, seed, out + h(BlockInput(seed, ctr))[..take], ctr + 1, n)
  {
    ExpandTag();
    assert Ascii("expand") + Zero(2) + seed + LE(ctr, 8) == BlockInput(seed, ctr);
  }

  lemma InBlock(j: nat, c: nat)
    requires 32 * c <= j < 32 * c + 32
    ensures j / 32 == c && j % 32 == j - 32 * c
  {
  }

  /** Byte j of an expansion, past what was there before, is byte j % 32 of block j / 32. */
  lemma {:induction false} ExpandedByte(h: HashFn, seed: Digest, out: seq<Byte>, ctr: nat, n: nat, j: nat)
    requires |out| <= j < n && |out| == 32 * ctr
    ensures Expand(h, seed, out, ctr, n)[j] == h(BlockInput(seed, j / 32))[j % 32]
    decreases n - |out|
  {
    hide Expand, BlockInput;
    ExpandStep(h, seed, out, ctr, n);
    var out' := out + h(BlockInput(seed, ctr))[..Min(32, n - |out|)];
    if j < |out'| {
      InBlock(j, ctr);
      ExpandKeeps(h, seed, out', ctr + 1, n, j);
    } else {
      ExpandedByte(h, seed, out', ctr + 1, n, j);
    }
  }

  lemma {:induction false} ExpandKeeps(h: HashFn, seed: Digest, out: seq<Byte>, ctr: nat, n: nat, j: nat)
    requires j < |out| <= n
    ensures Expand(h, seed, out, ctr, n)[j] == out[j]
    decreases n - |out|
  {
    if |out| < n {
      var take := Min(32, n - |out|);
      ExpandKeeps(h, seed, out + h(Ascii("expand") + Zero(2) + seed + LE(ctr, 8))[..take], ctr + 1, n, j);
    }
  }

  /** Counter mode: byte j of a squeeze. */
  lemma SqueezedByte(h: HashFn, st: Digest, name: seq<Byte>, n: nat, j: nat)
    requires j < n
    ensures SqueezeBytes(h, st, name, n)[j] == h(BlockInput(SqueezeState(h, st, name), j / 32))[j % 32]
  {
    ExpandedByte(h, SqueezeState(h, st, name), [], 0, n, j);
  }

  // ---------------------------------------------------------------- words and residues

  /** Eight bytes, least significant first. */
  function Word(b: seq<Byte>, i: nat): nat
    requires 8 * i + 8 <= |b|
  {
    var x: seq<int> := b[8 * i..8 * i + 8];
    x[0] + 0x100 * x[1] + 0x1_0000 * x[2] + 0x100_0000 * x[3]
    + 0x1_0000_0000 * x[4] + 0x100_0000_0000 * x[5] + 0x1_0000_0000_0000 * x[6] + 0x100_0000_0000_0000 * x[7]
  }

  lemma FromStep(b: seq<Byte>, x: int, rest: seq<Byte>)
    requires |b| > 0 && x == b[0] && b[1..] == rest
    ensures FromLE(b) == x + 0x100 * FromLE(rest)
  {
  }

  lemma FromEight(w: seq<Byte>)
    requires |w| == 8
    ensures FromLE(w) == Word(w, 0)
  {
    assert w[0..8] == w;
    hide FromLE;
    for k := 0 to 8
      invariant forall i :: 0 <= i < k ==> FromLE(w[i..]) == (w[i] as int) + 0x100 * FromLE(w[i + 1..])
    {
      FromStep(w[k..], w[k], w[k + 1..]);
    }
    FromEmpty(w[8..]);
    assert w[0..] == w;
  }

  lemma FromEmpty(b: seq<Byte>)
    requires |b| == 0
    ensures FromLE(b) == 0
  {
  }

  lemma {:induction false} WordsAt(bytes: seq<Byte>, n: nat, i: nat)
    requires |bytes| == 8 * n && i < n
    ensures WordsToFp(bytes, n)[i] == Word(bytes, i) % Field.P
  {
    hide Word, FromLE, WordToFp;
    if i == 0 {
      FirstWord(bytes);
    } else {
      WordsAt(bytes[8..], n - 1, i - 1);
      NextWord(bytes, i);
    }
  }

  lemma FirstWord(bytes: seq<Byte>)
    requires |bytes| >= 8
    ensures WordToFp(bytes[..8]) == Word(bytes, 0) % Field.P
  {
    hide FromLE;
    FromEight(bytes[..8]);
    WordFits();
    assert bytes[..8][0..8] == bytes[0..8];
  }

  lemma NextWord(bytes: seq<Byte>, i: nat)
    requires i > 0 && 8 * i + 8 <= |bytes|
    ensures Word(bytes[8..], i - 1) == Word(bytes, i)
  {
    assert bytes[8..][8 * (i - 1)..8 * (i - 1) + 8] == bytes[8 * i..8 * i + 8];
  }

  /** Coordinate i of a challenge: the i-th squeezed word modulo p. */
  lemma ChallengeAt(h: HashFn, st: Digest, name: seq<Byte>, n: nat, i: nat)
    requires i < n
    ensures ChallengeVec(h, st, name, n)[i] == Word(SqueezeBytes(h, st, name, 8 * n), i) % Field.P
  {
    WordsAt(SqueezeBytes(h, st, name, 8 * n), n, i);
  }

  // -------------------------------------------------------------- every vector is drawn

  /** Field elements as consecutive 8-byte words. */
  function Laid(r: seq<Field.Fp>): (b: seq<Byte>)
    ensures |b| == 8 * |r|
  {
    if |r| == 0 then [] else LE(r[0], 8) + Laid(r[1..])
  }

  lemma WordOfLE(x: Field.Fp)
    ensures WordToFp(LE(x, 8)) == x
  {
    WordFits();
    FromLEOfLE(x, 8);
    ModUnique(x, Field.TWO64, 0, x);
    ModUnique(x, Field.P, 0, x);
    hide LE, FromLE;
  }

  /** Decoding inverts laying out. */
  lemma {:induction false} WordsOfLaid(r: seq<Field.Fp>)
    ensures WordsToFp(Laid(r), |r|) == r
  {
    if |r| > 0 {
      LaidCons(r);
      hide *;
      WordsOfLaid(r[1..]);
      WordOfLE(r[0]);
      assert r == [r[0]] + r[1..];
    }
  }

  lemma LaidCons(r: seq<Field.Fp>)
    requires |r| > 0
    ensures WordsToFp(Laid(r), |r|) == [WordToFp(LE(r[0], 8))] + WordsToFp(Laid(r[1..]), |r| - 1)
  {
    hide LE, WordToFp;
    var b := Laid(r);
    assert b[..8] == LE(r[0], 8) && b[8..] == Laid(r[1..]);
  }

  /** Block c of a byte string, padded with zeros. */
  function BlockOf(b: seq<Byte>, c: nat): (d: Digest) {
    seq(32, k requires 0 <= k < 32 => if 32 * c + k < |b| then b[32 * c + k] else 0)
  }

  /** A hash that expands every seed to the given bytes. */
  function Scripted(b: seq<Byte>): HashFn {
    x => if |x| == 48 && x[0] == 101 then BlockOf(b, FromLE(x[40..])) else BlockOf([], 0)
  }

  lemma ScriptedBlock(b: seq<Byte>, seed: Digest, c: nat)
    requires c < Field.TWO64
    ensures Scripted(b)(BlockInput(seed, c)) == BlockOf(b, c)
  {
    var x := BlockInput(seed, c);
    assert |x| == 48 && x[0] == 101 && x[40..] == LE(c, 8);
    WordFits();
    FromLEOfLE(c, 8);
    ModUnique(c, Field.TWO64, 0, c);
  }

  /** Under that hash every squeeze of that length returns the bytes. */
  lemma ScriptedSqueeze(b: seq<Byte>, st: Digest, name: seq<Byte>)
    requires |b| < Field.TWO64
    ensures SqueezeBytes(Scripted(b), st, name, |b|) == b
  {
    hide Scripted, SqueezeBytes;
    var h := Scripted(b);
    forall j | 0 <= j < |b| ensures SqueezeBytes(h, st, name, |b|)[j] == b[j] {
      SqueezedByte(h, st, name, |b|, j);
      ScriptedBlock(b, SqueezeState(h, st, name), j / 32);
      assert 32 * (j / 32) + j % 32 == j;
    }
  }

  /** Every vector that fits in memory is the challenge drawn under some hash. */
  lemma AnyChallenge(r: seq<Field.Fp>, st: Digest, name: seq<Byte>) returns (h: HashFn)
    requires 8 * |r| < Field.TWO64
    ensures ChallengeVec(h, st, name, |r|) == r
  {
    h := Scripted(Laid(r));
    ScriptedSqueeze(Laid(r), st, name);
    WordsOfLaid(r);
  }

  // ---------------------------------------------------------------- domain separation

  /**
   * Opening, absorbing and expanding never hash one string; a squeeze hashes what an absorb does
   * only under the label "squeeze".
   */
  lemma DomainsApart(domain: seq<Byte>, s: Digest, name: seq<Byte>, data: seq<Byte>, seed: Digest, c: nat)
    requires |name| < Field.TWO64 && |data| < Field.TWO64
    ensures InitInput(domain) != AbsorbInput(s, name, data) && InitInput(domain) != BlockInput(seed, c)
    ensures AbsorbInput(s, name, data) != BlockInput(seed, c)
    ensures AbsorbInput(s, name, data) == AbsorbInput(seed, Ascii("squeeze"), domain) && |domain| < Field.TWO64 ==>
      s == seed && name == Ascii("squeeze") && data == domain
  {
    hide LE;
    assert Ascii("pwm.transcript.v1")[0] == 'p' as int % 256 && Ascii("absorb")[0] == 'a' as int % 256;
    assert InitInput(domain)[0] == 112 && AbsorbInput(s, name, data)[0] == 97 && BlockInput(seed, c)[0] == 101;
    if AbsorbInput(s, name, data) == AbsorbInput(seed, Ascii("squeeze"), domain) && |domain| < Field.TWO64 {
      AbsorbInputInjective(s, name, data, seed, Ascii("squeeze"), domain);
    }
  }
}
