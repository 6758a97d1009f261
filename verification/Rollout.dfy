/**
 * crates/pwm-verifier/src/lib.rs and crates/pwm-prover/src/lib.rs: autoregressive
 * rollout. Each step reads the flattened trailing window of latents and appends one.
 */
module Rollout {
  import opened Wrappers
  import opened Arith
  import opened Bytes
  import opened Matrix
  import opened Tensors
  import opened Commitments
  import opened Traces
  import opened FeedForward
  import opened FeedForwardVerifier
  import opened FeedForwardAudit
  import opened FeedForwardHonest
  import opened Planning
  import V = BlockVerifier

  datatype RolloutProof = RolloutProof(
    steps: seq<AuditArtifact>, initialLatents: Mat, historySize: nat, trajectory: Mat)

  /** The last `n` latents, laid end to end. */
  function Window(latents: Mat, n: nat): seq<int>
    requires n <= |latents|
  {
    Flatten(latents[|latents| - n..])
  }

  /** The window slides: a new latent enters at the end, and the oldest leaves. */
  lemma WindowSlides(l: Mat, x: seq<int>, n: nat)
    requires n <= |l|
    ensures Window(l, 0) == [] && Window(l + [x], n + 1) == Window(l, n) + x
  {
    assert (l + [x])[|l| - n..] == l[|l| - n..] + [x];
    FlattenSnoc(l[|l| - n..], x);
  }

  /** A history and the latents predicted after it, well formed for `steps` steps. */
  predicate WellFormed(p: RolloutProof) {
    p.historySize > 0 && |p.initialLatents| >= p.historySize && |p.steps| == |p.trajectory|
  }

  /** The window step `t` has to read. */
  function StepInput(p: RolloutProof, t: nat): seq<int>
    requires WellFormed(p) && t <= |p.trajectory|
  {
    Window(p.initialLatents + p.trajectory[..t], p.historySize)
  }

  /** Step `t` is verified, reads its window, and outputs the recorded latent. */
  predicate StepAccepted(h: HashFn, p: RolloutProof, t: nat)
    requires WellFormed(p) && t < |p.steps|
  {
    && Verify(h, p.steps[t]).Ok?
    && DecodeInput(p.steps[t].publicInput) == Ok(StepInput(p, t))
    && ClaimedValues(p.steps[t]) == p.trajectory[t]
  }

  predicate RolloutAccepted(h: HashFn, p: RolloutProof) {
    WellFormed(p) && forall t :: 0 <= t < |p.steps| ==> StepAccepted(h, p, t)
  }

  /** One step: its proof, the window it read, the latent it recorded. */
  function CheckStep(h: HashFn, p: RolloutProof, t: nat): Result<(), Error>
    requires WellFormed(p) && t < |p.steps|
  {
    var _ :- Verify(h, p.steps[t]).MapErr(e => V.RolloutStep(t, e));
    var got :- DecodeInput(p.steps[t].publicInput);
    V.Expect(got == StepInput(p, t) && ClaimedValues(p.steps[t]) == p.trajectory[t], V.RolloutWiring(t))
  }

  /** `e` is the error of the first step that fails. */
  ghost predicate FirstFailure(h: HashFn, p: RolloutProof, e: Error)
    requires WellFormed(p)
  {
    exists t :: 0 <= t < |p.steps| && CheckStep(h, p, t) == Err(e) && forall u :: 0 <= u < t ==> StepAccepted(h, p, u)
  }

  method VerifyRollout(h: HashFn, p: RolloutProof) returns (r: Result<(), Error>)
    ensures r.Ok? <==> RolloutAccepted(h, p)
    ensures !WellFormed(p) ==> r == Err(V.RolloutWiring(0))
    ensures WellFormed(p) && r.Err? ==> FirstFailure(h, p, r.error)
  {
    hide StepAccepted, CheckStep, Flatten;
    if p.historySize == 0 || |p.initialLatents| < p.historySize || |p.steps| != |p.trajectory| {
      return Err(V.RolloutWiring(0));
    }
    var latents := p.initialLatents;
    for t := 0 to |p.steps|
      invariant latents == p.initialLatents + p.trajectory[..t]
      invariant forall u :: 0 <= u < t ==> StepAccepted(h, p, u)
    {
      var checked := VerifyStep(h, p, t, latents);
      if checked.Err? { return Err(checked.error); }
      assert p.trajectory[..t + 1] == p.trajectory[..t] + [checked.value];
      latents := latents + [checked.value];
    }
    r := Ok(());
  }

  /** The loop body: the latent to append, or the error. */
  method VerifyStep(h: HashFn, p: RolloutProof, t: nat, latents: Mat) returns (r: Result<seq<int>, Error>)
    requires WellFormed(p) && t < |p.steps| && latents == p.initialLatents + p.trajectory[..t]
    ensures r.Ok? <==> StepAccepted(h, p, t)
    ensures r.Ok? ==> r.value == p.trajectory[t]
    ensures r.Err? ==> CheckStep(h, p, t) == Err(r.error)
  {
    hide Verify, DecodeInput, Flatten;
    var a := p.steps[t];
    var verdict := VerifyRun(h, a);
    if verdict.Err? { return Err(V.RolloutStep(t, verdict.error)); }
    var window := Window(latents, p.historySize);
    var got :- DecodeInput(a.publicInput);
    if got != window { return Err(V.RolloutWiring(t)); }
    var next := ClaimedValues(a);
    if next != p.trajectory[t] { return Err(V.RolloutWiring(t)); }
    r := Ok(next);
  }

  // ------------------------------------------------------------------- the recurrence

  ghost predicate NoStepEscapes(h: HashFn, p: RolloutProof) {
    forall t :: 0 <= t < |p.steps| ==> !AuditEscapes(h, p.steps[t], FiatStart(h, p.steps[t]))
  }

  predicate StepsBound(p: RolloutProof) {
    forall t :: 0 <= t < |p.steps| ==> BoundTrace(p.steps[t].weights, p.steps[t].trace)
  }

  /** Latent `j` counted from the first initial one: those given, then those predicted. */
  function LatentAt(p: RolloutProof, j: nat): seq<int>
    requires j < |p.initialLatents| + |p.trajectory|
  {
    if j < |p.initialLatents| then p.initialLatents[j] else p.trajectory[j - |p.initialLatents|]
  }

  /** What step `t` has to read: the last H latents before it, oldest first. */
  function Recent(p: RolloutProof, t: nat): (w: Mat)
    requires WellFormed(p) && t <= |p.trajectory|
    ensures |w| == p.historySize
    ensures forall k :: 0 <= k < p.historySize ==> w[k] == LatentAt(p, |p.initialLatents| + t - p.historySize + k)
  {
    seq(p.historySize, k requires 0 <= k < p.historySize => LatentAt(p, |p.initialLatents| + t - p.historySize + k))
  }

  lemma StepReads(p: RolloutProof, t: nat)
    requires WellFormed(p) && t <= |p.trajectory|
    ensures StepInput(p, t) == Flatten(Recent(p, t))
  {
    var latents := p.initialLatents + p.trajectory[..t];
    var n := p.historySize;
    var last := latents[|latents| - n..];
    forall k | 0 <= k < n ensures last[k] == Recent(p, t)[k] {
      var j := |p.initialLatents| + t - n + k;
      assert last[k] == latents[j];
      assert latents[j] == LatentAt(p, j);
      assert Recent(p, t)[k] == LatentAt(p, j);
    }
    assert last == Recent(p, t);
  }

  /**
   * The recurrence, at every horizon: an accepted rollout's latent `t` is what step t's
   * graph computes on the last H latents before it, laid end to end.
   */
  lemma RolloutSound(h: HashFn, p: RolloutProof)
    requires StepsBound(p) && NoStepEscapes(h, p) && RolloutAccepted(h, p)
    ensures forall t :: 0 <= t < |p.steps| ==>
              && DecodeInput(p.steps[t].publicInput) == Ok(Flatten(Recent(p, t)))
              && Compose(p.steps[t].graph, BindingsOf(p.steps[t]), Flatten(Recent(p, t))) == Some(p.trajectory[t])
  {
    hide Verify, BoundTrace, AuditEscapes, Compose, ExactVerify, StepInput, Recent, Flatten, DecodeInput;
    forall t | 0 <= t < |p.steps|
      ensures DecodeInput(p.steps[t].publicInput) == Ok(Flatten(Recent(p, t)))
           && Compose(p.steps[t].graph, BindingsOf(p.steps[t]), Flatten(Recent(p, t))) == Some(p.trajectory[t])
    {
      assert StepAccepted(h, p, t);
      StepReads(p, t);
      VerifyIsExact(h, p.steps[t]);
      ExactComputesGraph(h, p.steps[t]);
    }
  }

  // ------------------------------------------------------------------------ the prover

  /** Step `t` proved from its window. */
  predicate ProvedStep(h: HashFn, m: Model, ob: OutputBinding, p: RolloutProof, t: nat)
    requires WellFormed(p) && t < |p.steps|
  {
    && ProveFeedforward(h, m, StepInput(p, t), ob) == Ok(p.steps[t])
    && ClaimedValues(p.steps[t]) == p.trajectory[t]
  }

  predicate ProvedRollout(h: HashFn, m: Model, ob: OutputBinding, p: RolloutProof) {
    WellFormed(p) && forall t :: 0 <= t < |p.steps| ==> ProvedStep(h, m, ob, p, t)
  }

  /** Every proved step reads the last H latents before it. */
  lemma ProvedReads(h: HashFn, m: Model, ob: OutputBinding, p: RolloutProof, t: nat)
    requires ProvedRollout(h, m, ob, p) && t < |p.steps|
    ensures ProveFeedforward(h, m, Flatten(Recent(p, t)), ob) == Ok(p.steps[t])
    ensures p.trajectory[t] == ClaimedValues(p.steps[t])
  {
    hide ProveFeedforward, Flatten, Recent, StepInput;
    assert ProvedStep(h, m, ob, p, t);
    StepReads(p, t);
  }

  /** `q` proves the first steps, and the next one cannot be proved. */
  ghost predicate StopsAfter(h: HashFn, m: Model, ob: OutputBinding, q: RolloutProof, e: ProveError) {
    && ProvedRollout(h, m, ob, q)
    && ProveFeedforward(h, m, Window(q.initialLatents + q.trajectory, q.historySize), ob) == Err(e)
  }

  /**
   * The loop appends to the same three lists until a step cannot be proved. The window
   * size is carried as a u32, so a history of 2^32 latents or more is recorded truncated.
   */
  method ProveRollout(h: HashFn, m: Model, initial: Mat, historySize: nat, horizon: nat, ob: OutputBinding)
    returns (r: Result<RolloutProof, PlanError>, ghost q: RolloutProof)
    ensures q.initialLatents == initial && q.historySize == historySize
    ensures historySize == 0 || horizon == 0 || |initial| < historySize ==> r == Err(BadHistory)
    ensures r.Ok? ==>
              r.value == q.(historySize := historySize % TWO32) && ProvedRollout(h, m, ob, q) && |q.steps| == horizon
    ensures r.Err? && 0 < historySize <= |initial| && horizon > 0 ==>
              r.error.Prove? && StopsAfter(h, m, ob, q, r.error.e) && |q.steps| < horizon
  {
    hide ProveFeedforward, Flatten;
    q := RolloutProof([], initial, historySize, []);
    if historySize == 0 || horizon == 0 || |initial| < historySize {
      return Err(BadHistory), q;
    }
    var latents := initial;
    var steps: seq<AuditArtifact>, trajectory: Mat := [], [];
    for t := 0 to horizon
      invariant |steps| == t && latents == initial + trajectory
      invariant q == RolloutProof(steps, initial, historySize, trajectory) && ProvedRollout(h, m, ob, q)
    {
      var window := Window(latents, historySize);
      var a := ProveFeedforward(h, m, window, ob);
      if a.Err? { return Err(Prove(a.error)), q; }
      var next := ClaimedValues(a.value);
      ProvedMore(h, m, ob, q, a.value);
      latents := latents + [next];
      trajectory, steps := trajectory + [next], steps + [a.value];
      q := RolloutProof(steps, initial, historySize, trajectory);
    }
    r := Ok(RolloutProof(steps, initial, historySize % TWO32, trajectory));
  }

  /** Model, history and number of steps determine the proof. */
  lemma ProvedUnique(h: HashFn, m: Model, ob: OutputBinding, p: RolloutProof, q: RolloutProof, t: nat)
    requires ProvedRollout(h, m, ob, p) && ProvedRollout(h, m, ob, q)
    requires p.initialLatents == q.initialLatents && p.historySize == q.historySize
    requires t <= |p.steps| && t <= |q.steps|
    ensures p.steps[..t] == q.steps[..t] && p.trajectory[..t] == q.trajectory[..t]
  {
    hide ProveFeedforward, Flatten;
    for i := 0 to t
      invariant p.steps[..i] == q.steps[..i] && p.trajectory[..i] == q.trajectory[..i]
    {
      assert ProvedStep(h, m, ob, p, i) && ProvedStep(h, m, ob, q, i);
      assert p.steps[..i + 1] == p.steps[..i] + [p.steps[i]] && q.steps[..i + 1] == q.steps[..i] + [q.steps[i]];
      assert p.trajectory[..i + 1] == p.trajectory[..i] + [p.trajectory[i]];
      assert q.trajectory[..i + 1] == q.trajectory[..i] + [q.trajectory[i]];
    }
  }

  lemma ProvedMore(h: HashFn, m: Model, ob: OutputBinding, p: RolloutProof, a: AuditArtifact)
    requires ProvedRollout(h, m, ob, p)
    requires ProveFeedforward(h, m, Window(p.initialLatents + p.trajectory, p.historySize), ob) == Ok(a)
    ensures ProvedRollout(h, m, ob, p.(steps := p.steps + [a], trajectory := p.trajectory + [ClaimedValues(a)]))
  {
    hide ProveFeedforward, Flatten;
    var q := p.(steps := p.steps + [a], trajectory := p.trajectory + [ClaimedValues(a)]);
    forall t | 0 <= t < |q.steps| ensures ProvedStep(h, m, ob, q, t) {
      if t < |p.steps| {
        assert ProvedStep(h, m, ob, p, t);
        assert q.trajectory[..t] == p.trajectory[..t];
      } else {
        assert q.trajectory[..t] == p.trajectory;
      }
    }
  }

  /** A proved rollout of an int8 model is accepted exactly when every step is in range. */
  lemma RolloutComplete(h: HashFn, m: Model, ob: OutputBinding, p: RolloutProof)
    requires ProvedRollout(h, m, ob, p) && IdsAgree(WeightTensors(m.layers)) && Int8Layers(m.layers)
    ensures RolloutAccepted(h, p) <==> forall t :: 0 <= t < |p.steps| ==>
              AllInRange(p.steps[t].weights, p.steps[t].trace)
  {
    hide Verify, ProveFeedforward, AllInRange, IdsAgree, Int8Layers, StepInput, DecodeInput, HonestLinear, Int8Trace;
    forall t | 0 <= t < |p.steps|
      ensures StepAccepted(h, p, t) <==> AllInRange(p.steps[t].weights, p.steps[t].trace)
    {
      assert ProvedStep(h, m, ob, p, t);
      ProvedIsHonest(h, m, StepInput(p, t), ob, p.steps[t]);
      FeedForwardComplete(h, m, StepInput(p, t), ob, p.steps[t]);
    }
  }
}
