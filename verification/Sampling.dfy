/**
 * crates/pwm-verifier/src/lib.rs: `verify_sampled`, the routine audit that checks a
 * picked subset of the linear ops and trusts the rest.
 */
module Sampling {
  import opened Wrappers
  import opened Arith
  import opened Bytes
  import opened Transcripts
  import opened FiniteSets
  import opened Tensors
  import opened Kernels
  import opened Commitments
  import opened Traces
  import opened FeedForward
  import opened FeedForwardVerifier
  import opened FeedForwardAudit
  import opened Drawing
  import Field

  const MAX_PICKS: nat := 100_000

  function ChallengeU64(h: HashFn, st: Digest, name: seq<Byte>): nat {
    FromLE(SqueezeBytes(h, st, name, 8))
  }

  const PICK: seq<Byte> := Ascii("audit.pick")

  function PickIndex(h: HashFn, st: Digest, n: nat): nat {
    ChallengeU64(h, st, PICK) % (if n > 1 then n else 1)
  }

  /** Draw indices until `want` distinct ones are picked, or the draw limit is reached. */
  function Picks(h: HashFn, st: Digest, picked: set<nat>, want: nat, n: nat, draws: nat): set<nat>
    decreases MAX_PICKS - draws
  {
    if |picked| >= want || draws >= MAX_PICKS then picked
    else Picks(h, SqueezeState(h, st, PICK), picked + {PickIndex(h, st, n)}, want, n, draws + 1)
  }

  lemma PicksUnfold(h: HashFn, st: Digest, picked: set<nat>, want: nat, n: nat, draws: nat)
    ensures Picks(h, st, picked, want, n, draws)
         == if |picked| >= want || draws >= MAX_PICKS then picked
            else Picks(h, SqueezeState(h, st, PICK), picked + {PickIndex(h, st, n)}, want, n, draws + 1)
  {
  }

  function PicksFrom(h: HashFn, st: Digest, want: nat, n: nat): set<nat> {
    Picks(h, st, {}, want, n, 0)
  }

  lemma PicksStart(h: HashFn, st: Digest, want: nat, n: nat, draws: nat)
    requires draws == 0
    ensures PicksFrom(h, st, want, n) == Picks(h, st, {}, want, n, draws)
  {
    hide Picks;
  }

  function SeededState(h: HashFn, a: AuditArtifact, seed: nat): Digest {
    AbsorbState(h, FiatStart(h, a).state, Ascii("audit.seed"), LE(seed, 8))
  }

  function PickedFor(h: HashFn, a: AuditArtifact, sample: nat, seed: nat): set<nat> {
    var n := LinearCount(a.trace);
    PicksFrom(h, SeededState(h, a, seed), Min(sample, n), n)
  }

  function VerifySampled(h: HashFn, a: AuditArtifact, sample: nat, seed: nat): Result<nat, Error> {
    var picked := PickedFor(h, a, sample, seed);
    var _ :- VerifyWith(h, a, Sampled(FiatStart(h, a).state, picked, 0));
    Ok(|picked|)
  }

  method CountLinears(trace: seq<OpRecord>) returns (n: nat)
    ensures n == LinearCount(trace)
  {
    n := 0;
    for i := 0 to |trace|
      invariant n == LinearCount(trace[..i])
    {
      assert trace[..i + 1][..i] == trace[..i];
      if trace[i].LinearRec? { n := n + 1; }
    }
    assert trace[..|trace|] == trace;
  }

  method DrawPicks(h: HashFn, st: Digest, want: nat, n: nat) returns (picked: set<nat>)
    ensures picked == PicksFrom(h, st, want, n)
  {
    hide PicksFrom, Picks;
    var sel, draws := st, 0;
    picked := {};
    PicksStart(h, st, want, n, draws);
    while |picked| < want && draws < MAX_PICKS
      invariant draws <= MAX_PICKS
      invariant Picks(h, sel, picked, want, n, draws) == PicksFrom(h, st, want, n)
      decreases MAX_PICKS - draws
    {
      PicksUnfold(h, sel, picked, want, n, draws);
      picked := picked + {PickIndex(h, sel, n)};
      sel := SqueezeState(h, sel, PICK);
      draws := draws + 1;
    }
    PicksUnfold(h, sel, picked, want, n, draws);
  }

  method VerifySampledRun(h: HashFn, a: AuditArtifact, sample: nat, seed: nat) returns (r: Result<nat, Error>)
    ensures r == VerifySampled(h, a, sample, seed)
  {
    hide VerifyWith, SeededState;
    var nLinear := CountLinears(a.trace);
    var picked := DrawPicks(h, SeededState(h, a, seed), Min(sample, nLinear), nLinear);
    var c := new Challenger(h, Sampled(FiatStart(h, a).state, picked, 0));
    var ok := VerifyWithRun(a, c);
    if ok.Err? {
      return Err(ok.error);
    }
    r := Ok(|picked|);
  }

  /** Every pick is a linear index, and there are at most as many as asked for. */
  lemma {:induction false} PicksInRange(h: HashFn, st: Digest, picked: set<nat>, want: nat, n: nat, draws: nat)
    requires |picked| <= want <= n && forall i :: i in picked ==> i < n
    ensures forall i :: i in Picks(h, st, picked, want, n, draws) ==> i < n
    ensures |Picks(h, st, picked, want, n, draws)| <= want
    decreases MAX_PICKS - draws
  {
    if |picked| < want && draws < MAX_PICKS {
      var idx := PickIndex(h, st, n);
      if idx in picked { assert picked + {idx} == picked; }
      PicksInRange(h, SqueezeState(h, st, PICK), picked + {idx}, want, n, draws + 1);
    }
  }

  lemma PickedInRange(h: HashFn, a: AuditArtifact, sample: nat, seed: nat)
    ensures forall i :: i in PickedFor(h, a, sample, seed) ==> i < LinearCount(a.trace)
    ensures |PickedFor(h, a, sample, seed)| <= Min(sample, LinearCount(a.trace))
  {
    hide Picks;
    var n, draws := LinearCount(a.trace), 0;
    PicksStart(h, SeededState(h, a, seed), Min(sample, n), n, draws);
    PicksInRange(h, SeededState(h, a, seed), {}, Min(sample, n), n, draws);
  }

  // ---------------------------------------------------------------- full coverage

  predicate CoversAll(picked: set<nat>, n: nat) {
    forall i :: 0 <= i < n ==> i in picked
  }

  /** The same walk: same activation and same error, with the cursor alongside. */
  ghost predicate SameWalk(f: Walk, s: Walk, picked: set<nat>, count: nat) {
    if f.Ok? then
      && f.value.1.Fiat? && s.Ok? && s.value.0 == f.value.0
      && s.value.1 == Sampled(f.value.1.state, picked, count)
    else s.Err? && s.error == f.error
  }

  lemma {:induction false} SampledFollowsFiat(h: HashFn, st: Digest, picked: set<nat>, ws: seq<TensorT>,
                                              ts: seq<ActivationTable>, trace: seq<OpRecord>, start: seq<int>)
    requires CoversAll(picked, LinearCount(trace))
    ensures SameWalk(WalkTrace(h, Fiat(st), ws, ts, trace, start),
                     WalkTrace(h, Sampled(st, picked, 0), ws, ts, trace, start),
                     picked, LinearCount(trace))
  {
    if |trace| != 0 {
      var n := |trace| - 1;
      SampledFollowsFiat(h, st, picked, ws, ts, trace[..n], start);
      var f := WalkTrace(h, Fiat(st), ws, ts, trace[..n], start);
      if f.Ok? {
        SameRecord(h, f.value.1.state, picked, LinearCount(trace[..n]), ws, ts, trace[n]);
      }
    }
  }

  lemma SameRecord(h: HashFn, st: Digest, picked: set<nat>, i: nat, ws: seq<TensorT>, ts: seq<ActivationTable>,
                   rec: OpRecord)
    requires rec.LinearRec? ==> i in picked
    ensures var f := CheckRecord(h, Fiat(st), ws, ts, rec);
            var s := CheckRecord(h, Sampled(st, picked, i), ws, ts, rec);
            if f.Ok? then f.value.Fiat? && s == Ok(Sampled(f.value.state, picked, if rec.LinearRec? then i + 1 else i))
            else s == Err(f.error)
  {
    hide CheckLinearRec, CheckExactRec, ChallengeVec, SqueezeState, WeightI8;
  }

  /**
   * When the picks cover every linear record, the sampled audit is the full one: it
   * returns the number of linears iff verify accepts, and the same error otherwise.
   */
  lemma FullCoverageIsVerify(h: HashFn, a: AuditArtifact, sample: nat, seed: nat)
    requires CoversAll(PickedFor(h, a, sample, seed), LinearCount(a.trace))
    ensures VerifySampled(h, a, sample, seed)
         == if Verify(h, a).Ok? then Ok(LinearCount(a.trace)) else Err(Verify(h, a).error)
  {
    var picked, n := PickedFor(h, a, sample, seed), LinearCount(a.trace);
    PickedInRange(h, a, sample, seed);
    RangeSize(n);
    assert picked == Range(n);
    hide PickedFor, CheckStatement, CheckOutput, WalkTrace;
    if DecodeInput(a.publicInput).Ok? {
      SampledFollowsFiat(h, FiatStart(h, a).state, picked, a.weights, a.tables, a.trace,
                         DecodeInput(a.publicInput).value);
    }
  }

  /** As many distinct picks as linears is full coverage. */
  lemma AllPickedCovers(h: HashFn, a: AuditArtifact, sample: nat, seed: nat)
    requires |PickedFor(h, a, sample, seed)| == LinearCount(a.trace)
    ensures CoversAll(PickedFor(h, a, sample, seed), LinearCount(a.trace))
  {
    var picked, n := PickedFor(h, a, sample, seed), LinearCount(a.trace);
    PickedInRange(h, a, sample, seed);
    RangeSize(n);
    SubsetSize(picked, Range(n));
    if picked != Range(n) {
      var i :| i in Range(n) && i !in picked;
      assert picked <= Range(n) - {i};
      SubsetSize(picked, Range(n) - {i});
    }
  }

  // ------------------------------------------------------------- partial coverage

  /** Every record is exact, or a linear that was not picked. */
  predicate ExactOrTrusted(ws: seq<TensorT>, ts: seq<ActivationTable>, trace: seq<OpRecord>, picked: set<nat>) {
    |trace| == 0 || (
      var n := |trace| - 1;
      && ExactOrTrusted(ws, ts, trace[..n], picked)
      && (ExactRec(ws, ts, trace[n]) || (trace[n].LinearRec? && LinearCount(trace[..n]) !in picked)))
  }

  lemma {:induction false} SampledCursor(h: HashFn, st: Digest, picked: set<nat>, ws: seq<TensorT>,
                                         ts: seq<ActivationTable>, trace: seq<OpRecord>, start: seq<int>)
    ensures var s := WalkTrace(h, Sampled(st, picked, 0), ws, ts, trace, start);
            s.Ok? ==> s.value.1.Sampled? && s.value.1.picked == picked && s.value.1.linearIdx == LinearCount(trace)
  {
    if |trace| != 0 {
      SampledCursor(h, st, picked, ws, ts, trace[..|trace| - 1], start);
    }
  }

  lemma SampledRecord(h: HashFn, ch: Challenges, ws: seq<TensorT>, ts: seq<ActivationTable>, rec: OpRecord)
    requires ch.Sampled? && BoundRec(ws, rec) && CheckRecord(h, ch, ws, ts, rec).Ok? && !EscapesAt(h, ch, ws, rec)
    ensures ExactRec(ws, ts, rec) || (rec.LinearRec? && ch.linearIdx !in ch.picked)
  {
    if rec.LinearRec? && ch.linearIdx in ch.picked {
      LinearDecides(ws, ts, rec, Next(h, ch, ws, rec).value.0.value);
    }
  }

  /** What a partial audit still guarantees when no drawn challenge escapes. */
  lemma {:induction false} SampledSound(h: HashFn, st: Digest, picked: set<nat>, ws: seq<TensorT>,
                                        ts: seq<ActivationTable>, trace: seq<OpRecord>, start: seq<int>)
    requires BoundTrace(ws, trace) && WalkTrace(h, Sampled(st, picked, 0), ws, ts, trace, start).Ok?
    requires !WalkEscapes(h, Sampled(st, picked, 0), ws, ts, trace, start)
    ensures ExactOrTrusted(ws, ts, trace, picked)
  {
    hide ExactRec, CheckRecord, BoundRec, EscapesAt;
    if |trace| != 0 {
      var n := |trace| - 1;
      SampledSound(h, st, picked, ws, ts, trace[..n], start);
      SampledCursor(h, st, picked, ws, ts, trace[..n], start);
      SampledRecord(h, WalkTrace(h, Sampled(st, picked, 0), ws, ts, trace[..n], start).value.1, ws, ts, trace[n]);
    }
  }

  // ---------------------------------------------------------------- what is drawn

  /** The selection state after `j` draws. */
  function DrawState(h: HashFn, st: Digest, j: nat): Digest {
    if j == 0 then st else SqueezeState(h, DrawState(h, st, j - 1), Ascii("audit.pick"))
  }

  /** The word of draw `j`. */
  function DrawnWord(h: HashFn, st: Digest, j: nat): nat {
    Word(SqueezeBytes(h, DrawState(h, st, j), Ascii("audit.pick"), 8), 0)
  }

  /** The first `k` words modulo the number of linears. */
  function Residues(h: HashFn, st: Digest, n: nat, k: nat): (r: set<nat>)
    requires n > 0
  {
    set j | 0 <= j < k :: DrawnWord(h, st, j) % n
  }

  lemma PickIsResidue(h: HashFn, st: Digest, n: nat, j: nat)
    requires n > 0
    ensures PickIndex(h, DrawState(h, st, j), n) == DrawnWord(h, st, j) % n
  {
    FromEight(SqueezeBytes(h, DrawState(h, st, j), PICK, 8));
    hide SqueezeBytes, DrawState, FromLE;
  }

  lemma ResiduesStep(h: HashFn, st: Digest, n: nat, k: nat)
    requires n > 0
    ensures Residues(h, st, n, k + 1) == Residues(h, st, n, k) + {DrawnWord(h, st, k) % n}
  {
  }

  /** Draws stop at the first `k` that yields enough distinct picks, or at the limit. */
  ghost predicate StopsAt(h: HashFn, st: Digest, want: nat, n: nat, k: nat)
    requires n > 0
  {
    && k <= 100_000 && (k == 100_000 || |Residues(h, st, n, k)| >= want)
    && forall j :: 0 <= j < k ==> |Residues(h, st, n, j)| < want
  }

  lemma PicksFromDraw(h: HashFn, st: Digest, want: nat, n: nat, j: nat) returns (k: nat)
    requires n > 0 && j <= MAX_PICKS && forall i :: 0 <= i < j ==> |Residues(h, st, n, i)| < want
    ensures StopsAt(h, st, want, n, k)
    ensures Picks(h, DrawState(h, st, j), Residues(h, st, n, j), want, n, j) == Residues(h, st, n, k)
    decreases MAX_PICKS - j
  {
    hide Picks, Residues, DrawnWord, PickIndex;
    PicksUnfold(h, DrawState(h, st, j), Residues(h, st, n, j), want, n, j);
    if |Residues(h, st, n, j)| >= want || j >= MAX_PICKS {
      k := j;
    } else {
      PickIsResidue(h, st, n, j);
      ResiduesStep(h, st, n, j);
      k := PicksFromDraw(h, st, want, n, j + 1);
    }
  }

  /** The picks are the residues modulo n of the words drawn up to the stopping draw. */
  lemma PicksAreResidues(h: HashFn, a: AuditArtifact, sample: nat, seed: nat) returns (k: nat)
    requires LinearCount(a.trace) > 0
    ensures StopsAt(h, SeededState(h, a, seed), Min(sample, LinearCount(a.trace)), LinearCount(a.trace), k)
    ensures PickedFor(h, a, sample, seed) == Residues(h, SeededState(h, a, seed), LinearCount(a.trace), k)
  {
    hide Picks, SeededState, DrawnWord;
    var st, n, j := SeededState(h, a, seed), LinearCount(a.trace), 0;
    assert Residues(h, st, n, j) == {} && DrawState(h, st, j) == st;
    PicksStart(h, st, Min(sample, n), n, j);
    k := PicksFromDraw(h, st, Min(sample, n), n, j);
  }

  /** Every linear can be picked: each index is drawn first under some hash. */
  lemma AnyPick(st: Digest, n: nat, i: nat) returns (h: HashFn)
    requires i < n <= Field.TWO64
    ensures PickIndex(h, st, n) == i
  {
    var b := LE(i, 8);
    h := Scripted(b);
    ScriptedSqueeze(b, st, PICK);
    WordFits();
    FromLEOfLE(i, 8);
    ModUnique(i, Field.TWO64, 0, i);
    ModUnique(i, n, 0, i);
    assert ChallengeU64(h, st, PICK) == i;
  }

  /** The seed enters the selection: two seeds with one selection state yield a collision. */
  function SeedClash(h: HashFn, a: AuditArtifact, s: nat, t: nat): (c: Pair)
    requires s != t && s < Field.TWO64 && t < Field.TWO64 && SeededState(h, a, s) == SeededState(h, a, t)
    ensures c.Collides(h)
  {
    var st := FiatStart(h, a).state;
    assert LE(s, 8) != LE(t, 8) by {
      WordFits();
      if LE(s, 8) == LE(t, 8) { LEInjective(s, t, 8); }
    }
    var x, y := AbsorbInput(st, Ascii("audit.seed"), LE(s, 8)), AbsorbInput(st, Ascii("audit.seed"), LE(t, 8));
    assert x != y by {
      if x == y { AbsorbInputInjective(st, Ascii("audit.seed"), LE(s, 8), st, Ascii("audit.seed"), LE(t, 8)); }
    }
    Pair(x, y)
  }
}
