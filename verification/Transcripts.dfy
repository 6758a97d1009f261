/**
 * crates/pwm-core/src/transcript.rs: the hash-chained Fiat-Shamir transcript, and
 * what two equal transcript states say about the data absorbed.
 */
module Transcripts {
  import opened Arith
  import opened Bytes
  import Field

  /** ASCII text as bytes. */
  function Ascii(s: string): (b: seq<Byte>)
    ensures |b| == |s|
  {
    seq(|s|, i requires 0 <= i < |s| => s[i] as int % 256)
  }

  function Zero(n: nat): (b: seq<Byte>)
    ensures |b| == n
  {
    seq(n, _ => 0)
  }

  // ------------------------------------------------------------ the state machine

  function InitInput(domain: seq<Byte>): seq<Byte> {
    Ascii("pwm.transcript.v1") + Zero(1) + domain
  }

  function InitState(h: HashFn, domain: seq<Byte>): Digest {
    h(InitInput(domain))
  }

  /** What one absorb hashes: lengths in front of name and data. */
  function AbsorbInput(state: Digest, name: seq<Byte>, data: seq<Byte>): seq<Byte> {
    Ascii("absorb") + Zero(2) + state + LE(|name|, 8) + name + LE(|data|, 8) + data
  }

  function AbsorbState(h: HashFn, state: Digest, name: seq<Byte>, data: seq<Byte>): Digest {
    h(AbsorbInput(state, name, data))
  }

  /** `out`, extended to `n` bytes by 32-byte blocks of `seed` from counter `ctr` on. */
  function Expand(h: HashFn, seed: Digest, out: seq<Byte>, ctr: nat, n: nat): (b: seq<Byte>)
    requires |out| <= n
    ensures |b| == n
    decreases n - |out|
  {
    if |out| == n then out
    else
      var take := Min(32, n - |out|);
      Expand(h, seed, out + h(Ascii("expand") + Zero(2) + seed + LE(ctr, 8))[..take], ctr + 1, n)
  }

  function SqueezeState(h: HashFn, state: Digest, name: seq<Byte>): Digest {
    AbsorbState(h, state, Ascii("squeeze"), name)
  }

  function SqueezeBytes(h: HashFn, state: Digest, name: seq<Byte>, n: nat): (b: seq<Byte>)
    ensures |b| == n
  {
    Expand(h, SqueezeState(h, state, name), [], 0, n)
  }

  /** Each 8-byte word reduced into the audit field. */
  function WordsToFp(bytes: seq<Byte>, n: nat): (r: seq<Field.Fp>)
    requires |bytes| == 8 * n
    ensures |r| == n
  {
    if n == 0 then []
    else [WordToFp(bytes[..8])] + WordsToFp(bytes[8..], n - 1)
  }

  function WordToFp(w: seq<Byte>): Field.Fp
    requires |w| == 8
  {
    WordFits();
    Field.Reduce64(FromLE(w))
  }

  lemma WordFits()
    ensures Pow256(8) == Field.TWO64
  {
    assert Pow256(6) == 256 * 256 * Pow256(4);
  }

  function ChallengeVec(h: HashFn, state: Digest, name: seq<Byte>, n: nat): (r: seq<Field.Fp>)
    ensures |r| == n
  {
    WordsToFp(SqueezeBytes(h, state, name, 8 * n), n)
  }

  lemma WordsStep(bytes: seq<Byte>, n: nat, i: nat, r: seq<Field.Fp>)
    requires |bytes| == 8 * n && i < n
    ensures r + WordsToFp(bytes[8 * i..], n - i)
         == (r + [WordToFp(bytes[8 * i..8 * i + 8])]) + WordsToFp(bytes[8 * (i + 1)..], n - (i + 1))
  {
    var rest := bytes[8 * i..];
    assert rest[..8] == bytes[8 * i..8 * i + 8] && rest[8..] == bytes[8 * (i + 1)..];
  }

  /** The mutable transcript. */
  class Transcript {
    const h: HashFn
    var state: Digest

    constructor (h: HashFn, domain: seq<Byte>)
      ensures this.h == h && state == InitState(h, domain)
    {
      this.h := h;
      state := h(Ascii("pwm.transcript.v1") + Zero(1) + domain);
    }

    method Absorb(name: seq<Byte>, data: seq<Byte>)
      modifies this
      ensures state == AbsorbState(h, old(state), name, data)
    {
      var buf := Ascii("absorb") + Zero(2);
      buf := buf + state;
      buf := buf + LE(|name|, 8) + name;
      buf := buf + LE(|data|, 8) + data;
      state := h(buf);
    }

    method SqueezeInto(name: seq<Byte>, n: nat) returns (out: seq<Byte>)
      modifies this
      ensures state == SqueezeState(h, old(state), name)
      ensures out == SqueezeBytes(h, old(state), name, n)
    {
      Absorb(Ascii("squeeze"), name);
      var seed := state;
      var ctr := 0;
      out := [];
      while |out| < n
        invariant |out| <= n && state == seed
        invariant Expand(h, seed, out, ctr, n) == Expand(h, seed, [], 0, n)
      {
        var block := h(Ascii("expand") + Zero(2) + seed + LE(ctr, 8));
        var take := Min(32, n - |out|);
        out := out + block[..take];
        ctr := ctr + 1;
      }
    }

    method ChallengeFp61Vec(name: seq<Byte>, n: nat) returns (r: seq<Field.Fp>)
      modifies this
      ensures state == SqueezeState(h, old(state), name)
      ensures r == ChallengeVec(h, old(state), name, n)
    {
      var bytes := SqueezeInto(name, 8 * n);
      r := [];
      for i := 0 to n
        invariant r + WordsToFp(bytes[8 * i..], n - i) == WordsToFp(bytes, n)
        invariant state == SqueezeState(h, old(state), name)
      {
        var w := bytes[8 * i..8 * i + 8];
        WordsStep(bytes, n, i, r);
        r := r + [WordToFp(w)];
      }
    }
  }

  // ------------------------------------------------------------------- binding

  lemma Pieces(a: seq<Byte>, s: seq<Byte>, b: seq<Byte>, t: seq<Byte>)
    requires |a| == |b| && a + s == b + t
    ensures a == b && s == t
  {
    assert (a + s)[..|a|] == a && (b + t)[..|b|] == b;
    assert (a + s)[|a|..] == s && (b + t)[|b|..] == t;
  }

  /** A length-prefixed string is determined by any stream it starts. */
  lemma PrefixedString(a: seq<Byte>, s: seq<Byte>, b: seq<Byte>, t: seq<Byte>)
    requires |a| < Field.TWO64 && |b| < Field.TWO64
    requires LE(|a|, 8) + (a + s) == LE(|b|, 8) + (b + t)
    ensures a == b && s == t
  {
    Pieces(LE(|a|, 8), a + s, LE(|b|, 8), b + t);
    WordFits();
    LEInjective(|a|, |b|, 8);
    Pieces(a, s, b, t);
  }

  lemma AbsorbShape(s: Digest, l: seq<Byte>, d: seq<Byte>)
    ensures AbsorbInput(s, l, d) == (Ascii("absorb") + Zero(2) + s) + (LE(|l|, 8) + (l + (LE(|d|, 8) + d)))
  {
  }

  /** The absorbed string determines the prior state, the name and the data. */
  lemma AbsorbInputInjective(s: Digest, l: seq<Byte>, d: seq<Byte>, s': Digest, l': seq<Byte>, d': seq<Byte>)
    requires |l| < Field.TWO64 && |d| < Field.TWO64 && |l'| < Field.TWO64 && |d'| < Field.TWO64
    requires AbsorbInput(s, l, d) == AbsorbInput(s', l', d')
    ensures s == s' && l == l' && d == d'
  {
    var tag := Ascii("absorb") + Zero(2);
    AbsorbShape(s, l, d);
    AbsorbShape(s', l', d');
    Pieces(tag + s, LE(|l|, 8) + (l + (LE(|d|, 8) + d)), tag + s', LE(|l'|, 8) + (l' + (LE(|d'|, 8) + d')));
    Pieces(tag, s, tag, s');
    PrefixedString(l, LE(|d|, 8) + d, l', LE(|d'|, 8) + d');
    assert LE(|d|, 8) + (d + []) == LE(|d|, 8) + d && LE(|d'|, 8) + (d' + []) == LE(|d'|, 8) + d';
    PrefixedString(d, [], d', []);
  }

  /** A list of named absorbs, in order. */
  datatype Entry = Entry(name: seq<Byte>, data: seq<Byte>) {
    predicate Sized() { |name| < Field.TWO64 && |data| < Field.TWO64 }
  }

  function AbsorbAll(h: HashFn, state: Digest, es: seq<Entry>): Digest {
    if |es| == 0 then state
    else
      var n := |es| - 1;
      AbsorbState(h, AbsorbAll(h, state, es[..n]), es[n].name, es[n].data)
  }

  lemma {:induction false} AbsorbAllAppend(h: HashFn, state: Digest, a: seq<Entry>, b: seq<Entry>)
    ensures AbsorbAll(h, state, a + b) == AbsorbAll(h, AbsorbAll(h, state, a), b)
  {
    if |b| == 0 {
      assert a + b == a;
    } else {
      var n := |b| - 1;
      AbsorbAllAppend(h, state, a, b[..n]);
      assert (a + b)[..|a + b| - 1] == a + b[..n];
    }
  }

  lemma SameLists<T>(a: seq<T>, b: seq<T>)
    requires |a| == |b| > 0 && a[..|a| - 1] == b[..|a| - 1] && a[|a| - 1] == b[|a| - 1]
    ensures a == b
  {
    forall i | 0 <= i < |a| ensures a[i] == b[i] {
      if i < |a| - 1 { assert a[i] == a[..|a| - 1][i] == b[..|a| - 1][i] == b[i]; }
    }
  }

  predicate AllSized(es: seq<Entry>) {
    forall i :: 0 <= i < |es| ==> es[i].Sized()
  }

  /** The string hashed last. */
  function LastInput(h: HashFn, s: Digest, es: seq<Entry>): (x: seq<Byte>)
    requires |es| > 0
    ensures AbsorbAll(h, s, es) == h(x)
  {
    hide AbsorbInput;
    var n := |es| - 1;
    AbsorbInput(AbsorbAll(h, s, es[..n]), es[n].name, es[n].data)
  }

  /** Opening a transcript and absorbing into one hash different strings. */
  lemma InitIsNotAbsorb(h: HashFn, domain: seq<Byte>, s: Digest, es: seq<Entry>)
    requires |es| > 0
    ensures InitInput(domain) != LastInput(h, s, es)
  {
    hide AbsorbAll;
    assert Ascii("pwm.transcript.v1")[0] == 'p' as int % 256 && Ascii("absorb")[0] == 'a' as int % 256;
    assert InitInput(domain)[0] == 112 && LastInput(h, s, es)[0] == 97;
  }

  lemma LastInputBinds(h: HashFn, s: Digest, a: seq<Entry>, b: seq<Entry>)
    requires |a| > 0 && |b| > 0 && AllSized(a) && AllSized(b) && LastInput(h, s, a) == LastInput(h, s, b)
    ensures AbsorbAll(h, s, a[..|a| - 1]) == AbsorbAll(h, s, b[..|b| - 1])
    ensures a != b ==> a[..|a| - 1] != b[..|b| - 1]
  {
    var m, n := |a| - 1, |b| - 1;
    AbsorbInputInjective(AbsorbAll(h, s, a[..m]), a[m].name, a[m].data, AbsorbAll(h, s, b[..n]), b[n].name, b[n].data);
    if a[..m] == b[..n] { SameLists(a, b); }
  }

  /**
   * Two different chains absorbed from the same start and ending in the same state:
   * peeling them from the end reaches the two hashed strings that collide.
   */
  function ChainClash(h: HashFn, domain: seq<Byte>, a: seq<Entry>, b: seq<Entry>): (c: Pair)
    requires AllSized(a) && AllSized(b) && a != b
    requires AbsorbAll(h, InitState(h, domain), a) == AbsorbAll(h, InitState(h, domain), b)
    ensures c.Collides(h)
    decreases |a|
  {
    var s := InitState(h, domain);
    if |a| == 0 then
      InitIsNotAbsorb(h, domain, s, b);
      Pair(InitInput(domain), LastInput(h, s, b))
    else if |b| == 0 then
      InitIsNotAbsorb(h, domain, s, a);
      Pair(InitInput(domain), LastInput(h, s, a))
    else if LastInput(h, s, a) != LastInput(h, s, b) then Pair(LastInput(h, s, a), LastInput(h, s, b))
    else
      LastInputBinds(h, s, a, b);
      ChainClash(h, domain, a[..|a| - 1], b[..|b| - 1])
  }
}
