/**
 * crates/pwm-verifier/src/lib.rs and crates/pwm-prover/src/lib.rs: fixed-candidate
 * planning, verified candidate by candidate or with challenges shared per weight.
 */
module Planning {
  import opened Wrappers
  import opened Arith
  import opened Bytes
  import opened Transcripts
  import opened Tensors
  import opened Freivalds
  import opened Commitments
  import opened Traces
  import opened FeedForward
  import opened FeedForwardVerifier
  import opened FeedForwardAudit
  import opened FeedForwardHonest
  import opened Selection
  import Sorting
  import V = BlockVerifier
  import P = BlockProver
  import Field

  datatype PlanningProof = PlanningProof(
    candidates: seq<AuditArtifact>, goal: seq<int>, costs: seq<int>, selectedIndex: nat, selectedCost: int)

  // ------------------------------------------------------------ candidate by candidate

  function ClaimedValues(a: AuditArtifact): seq<int> { a.claimedOutput.Values() }

  /** The claimed cost of candidate `i` is its exact goal distance. */
  predicate CostOk(p: PlanningProof, i: nat)
    requires i < |p.candidates| == |p.costs|
  {
    |ClaimedValues(p.candidates[i])| == |p.goal| && Mse(ClaimedValues(p.candidates[i]), p.goal) == Some(p.costs[i])
  }

  method CheckCost(p: PlanningProof, i: nat) returns (ok: bool)
    requires i < |p.candidates| == |p.costs|
    ensures ok == CostOk(p, i)
  {
    var out := ClaimedValues(p.candidates[i]);
    if |out| != |p.goal| { return false; }
    var cost := MseCost(out, p.goal);
    ok := cost == Some(p.costs[i]);
  }

  predicate SelectionOk(p: PlanningProof) {
    FirstMin(p.costs, p.selectedIndex, p.selectedCost)
  }

  /** The verdict of per-candidate verification. */
  predicate PlanAccepted(h: HashFn, p: PlanningProof) {
    && |p.candidates| > 0 && |p.costs| == |p.candidates|
    && (forall i :: 0 <= i < |p.candidates| ==> Verify(h, p.candidates[i]).Ok? && CostOk(p, i))
    && SelectionOk(p)
  }

  /** One candidate: its proof, under its own challenges or shared ones, then its cost. */
  function CheckCandidate(h: HashFn, p: PlanningProof, shared: Option<Challenges>, i: nat): Result<(), Error>
    requires i < |p.candidates| == |p.costs|
  {
    var a := p.candidates[i];
    var _ :- VerifyWith(h, a, if shared.Some? then shared.value else FiatStart(h, a)).MapErr(e => V.Candidate(i, e));
    V.Expect(CostOk(p, i), V.CostMismatch(i))
  }

  predicate AllChecked(h: HashFn, p: PlanningProof, shared: Option<Challenges>)
    requires |p.candidates| == |p.costs|
  {
    forall i :: 0 <= i < |p.candidates| ==> CheckCandidate(h, p, shared, i).Ok?
  }

  /** `e` is the error of the first candidate that fails. */
  ghost predicate FirstFailure(h: HashFn, p: PlanningProof, shared: Option<Challenges>, e: Error)
    requires |p.candidates| == |p.costs|
  {
    exists i :: 0 <= i < |p.candidates| && CheckCandidate(h, p, shared, i) == Err(e)
      && forall j :: 0 <= j < i ==> CheckCandidate(h, p, shared, j).Ok?
  }

  /** `e` is the error of the first candidate that fails, or of the selection when none does. */
  ghost predicate Rejects(h: HashFn, p: PlanningProof, shared: Option<Challenges>, e: Error)
    requires |p.candidates| == |p.costs|
  {
    FirstFailure(h, p, shared, e) || (AllChecked(h, p, shared) && !SelectionOk(p) && e == V.ArgminViolation)
  }

  method CheckOne(h: HashFn, p: PlanningProof, shared: Option<Challenges>, i: nat) returns (r: Result<(), Error>)
    requires i < |p.candidates| == |p.costs|
    ensures r == CheckCandidate(h, p, shared, i)
  {
    hide VerifyWith, CostOk, FiatStart;
    var a := p.candidates[i];
    var c := new Challenger(h, if shared.Some? then shared.value else FiatStart(h, a));
    var verdict := VerifyWithRun(a, c);
    if verdict.Err? { return Err(V.Candidate(i, verdict.error)); }
    var ok := CheckCost(p, i);
    if !ok { return Err(V.CostMismatch(i)); }
    r := Ok(());
  }

  /** The loop over the candidates. */
  method CheckCandidates(h: HashFn, p: PlanningProof, shared: Option<Challenges>) returns (r: Result<(), Error>)
    requires |p.candidates| == |p.costs|
    ensures r.Ok? <==> AllChecked(h, p, shared)
    ensures r.Err? ==> FirstFailure(h, p, shared, r.error)
  {
    hide CheckCandidate;
    for i := 0 to |p.candidates|
      invariant forall j :: 0 <= j < i ==> CheckCandidate(h, p, shared, j).Ok?
    {
      var checked := CheckOne(h, p, shared, i);
      if checked.Err? { return checked; }
    }
    r := Ok(());
  }

  /** Why per-candidate verification rejects. */
  ghost predicate PlanRejected(h: HashFn, p: PlanningProof, e: Error) {
    if |p.candidates| == 0 then e == V.NoCandidates
    else if |p.costs| != |p.candidates| then e == V.ArgminViolation
    else Rejects(h, p, None, e)
  }

  lemma OwnVerdict(h: HashFn, p: PlanningProof)
    requires |p.candidates| == |p.costs|
    ensures AllChecked(h, p, None)
       <==> forall i :: 0 <= i < |p.candidates| ==> Verify(h, p.candidates[i]).Ok? && CostOk(p, i)
  {
    hide VerifyWith, CostOk, FiatStart;
    forall i | 0 <= i < |p.candidates|
      ensures CheckCandidate(h, p, None, i).Ok? <==> Verify(h, p.candidates[i]).Ok? && CostOk(p, i)
    {
    }
  }

  method VerifyPlanning(h: HashFn, p: PlanningProof) returns (r: Result<(), Error>)
    ensures r.Ok? <==> PlanAccepted(h, p)
    ensures r.Err? ==> PlanRejected(h, p, r.error)
  {
    hide Verify, CostOk, AllChecked, FirstFailure, FirstMin;
    if |p.candidates| == 0 { return Err(V.NoCandidates); }
    if |p.costs| != |p.candidates| { return Err(V.ArgminViolation); }
    OwnVerdict(h, p);
    var _ :- CheckCandidates(h, p, None);
    var sel := VerifyArgmin(p.costs, p.selectedIndex, p.selectedCost);
    if sel.Err? { return Err(V.ArgminViolation); }
    r := Ok(());
  }

  method VerifyRun(h: HashFn, a: AuditArtifact) returns (r: Result<(), Error>)
    ensures r == Verify(h, a)
  {
    var c := new Challenger(h, FiatStart(h, a));
    r := VerifyWithRun(a, c);
  }

  // -------------------------------------------------------------- shared challenges

  /** Same graph, weights, tables and commitments as the first candidate. */
  predicate SameModel(a: AuditArtifact, b: AuditArtifact) {
    && a.graph == b.graph && a.weights == b.weights && a.tables == b.tables
    && a.publicInput.modelCommitment == b.publicInput.modelCommitment
    && a.publicInput.quantizationCommitment == b.publicInput.quantizationCommitment
  }

  predicate AllSame(cs: seq<AuditArtifact>) {
    forall i :: 0 <= i < |cs| ==> SameModel(cs[i], cs[0])
  }

  function RootEntries(h: HashFn, cs: seq<AuditArtifact>): seq<Entry> {
    if |cs| == 0 then []
    else RootEntries(h, cs[..|cs| - 1]) + [Entry(Ascii("trace_root"), TraceRoot(h, cs[|cs| - 1].trace))]
  }

  /** The shared transcript, bound to every candidate's trace. */
  function BatchState(h: HashFn, cs: seq<AuditArtifact>): Digest {
    AbsorbAll(h, InitState(h, Ascii("pwm.batched.v1")), [Entry(Ascii("candidates"), LE(|cs|, 8))] + RootEntries(h, cs))
  }

  /** The weight ids of the graph's linears, in order of appearance. */
  function LinearIds(ops: seq<OpSpec>): seq<nat> {
    if |ops| == 0 then []
    else LinearIds(ops[..|ops| - 1]) + (if ops[|ops| - 1].LinearSpec? then [ops[|ops| - 1].weightId] else [])
  }

  /** `dedup`: drop entries equal to their predecessor. */
  function Dedup(s: seq<nat>): seq<nat> {
    if |s| <= 1 then s
    else if s[|s| - 1] == s[|s| - 2] then Dedup(s[..|s| - 1])
    else Dedup(s[..|s| - 1]) + [s[|s| - 1]]
  }

  function Keyed(s: seq<nat>): (k: seq<(int, nat)>)
    ensures |k| == |s| && forall i :: 0 <= i < |s| ==> k[i] == (s[i], s[i])
  {
    seq(|s|, i requires 0 <= i < |s| => (s[i], s[i]))
  }

  /** The distinct weight ids, ascending. */
  function DistinctIds(ops: seq<OpSpec>): seq<nat> {
    Dedup(Sorting.Values(Sorting.Sort<nat>(Keyed(LinearIds(ops)))))
  }

  type Maps = (map<nat, seq<Field.Fp>>, map<nat, seq<Field.Fp>>)

  datatype Batch = Batch(maps: Maps, state: Digest)

  /** One challenge and one fold per weight id, drawn in order. */
  function BatchMaps(h: HashFn, st: Digest, ws: seq<TensorT>, ids: seq<nat>): Result<Batch, Error> {
    if |ids| == 0 then Ok(Batch((map[], map[]), st))
    else
      var n := |ids| - 1;
      var b :- BatchMaps(h, st, ws, ids[..n]);
      var (w, rows, cols) :- WeightI8(ws, ids[n]);
      var r := ChallengeVec(h, b.state, V.FREIVALDS_R, rows);
      var v := Reduced(VOf(r, w, rows, cols));
      Ok(Batch((b.maps.0[ids[n] := r], b.maps.1[ids[n] := v]), SqueezeState(h, b.state, V.FREIVALDS_R)))
  }

  method ComputeMaps(h: HashFn, st: Digest, ws: seq<TensorT>, ids: seq<nat>) returns (r: Result<Maps, Error>)
    ensures var spec := BatchMaps(h, st, ws, ids);
            r == if spec.Ok? then Ok(spec.value.maps) else Err(spec.error)
  {
    var rmap: map<nat, seq<Field.Fp>>, vmap: map<nat, seq<Field.Fp>> := map[], map[];
    var state := st;
    for i := 0 to |ids|
      invariant BatchMaps(h, st, ws, ids[..i]) == Ok(Batch((rmap, vmap), state))
    {
      assert ids[..i + 1][..i] == ids[..i];
      var m := WeightI8(ws, ids[i]);
      if m.Err? {
        MapsStuck(h, st, ws, ids, i + 1);
        return Err(m.error);
      }
      var (w, rows, cols) := m.value;
      var rv := ChallengeVec(h, state, V.FREIVALDS_R, rows);
      var v := PrecomputeV(rv, w, rows, cols);
      rmap, vmap := rmap[ids[i] := rv], vmap[ids[i] := v];
      state := SqueezeState(h, state, V.FREIVALDS_R);
    }
    assert ids[..|ids|] == ids;
    r := Ok((rmap, vmap));
  }

  lemma {:induction false} MapsStuck(h: HashFn, st: Digest, ws: seq<TensorT>, ids: seq<nat>, i: nat)
    requires i <= |ids| && BatchMaps(h, st, ws, ids[..i]).Err?
    ensures BatchMaps(h, st, ws, ids) == BatchMaps(h, st, ws, ids[..i])
  {
    if i < |ids| {
      assert ids[..|ids| - 1][..i] == ids[..i];
      MapsStuck(h, st, ws, ids[..|ids| - 1], i);
    } else {
      assert ids[..i] == ids;
    }
  }

  function BatchFor(h: HashFn, cs: seq<AuditArtifact>): Result<Batch, Error>
    requires |cs| > 0
  {
    BatchMaps(h, BatchState(h, cs), cs[0].weights, DistinctIds(cs[0].graph))
  }

  function SharedChallenges(h: HashFn, cs: seq<AuditArtifact>): Challenges
    requires |cs| > 0 && BatchFor(h, cs).Ok?
  {
    var maps := BatchFor(h, cs).value.maps;
    Batched(maps.0, maps.1)
  }

  /** The verdict of batched verification. */
  predicate BatchAccepted(h: HashFn, p: PlanningProof) {
    && |p.candidates| > 0 && |p.costs| == |p.candidates|
    && if !AllSame(p.candidates) then PlanAccepted(h, p)
       else
         && BatchFor(h, p.candidates).Ok?
         && AllPass(h, p, SharedChallenges(h, p.candidates))
         && SelectionOk(p)
  }

  method CheckSame(cs: seq<AuditArtifact>) returns (same: bool)
    requires |cs| > 0
    ensures same == AllSame(cs)
  {
    for i := 1 to |cs|
      invariant forall j :: 0 <= j < i ==> SameModel(cs[j], cs[0])
    {
      if !SameModel(cs[i], cs[0]) {
        return false;
      }
    }
    same := true;
  }

  /** Every candidate passes under the challenges, at its exact cost. */
  predicate AllPass(h: HashFn, p: PlanningProof, ch: Challenges)
    requires |p.candidates| == |p.costs|
  {
    forall i :: 0 <= i < |p.candidates| ==> VerifyWith(h, p.candidates[i], ch).Ok? && CostOk(p, i)
  }

  lemma SharedVerdict(h: HashFn, p: PlanningProof, ch: Challenges)
    requires |p.candidates| == |p.costs|
    ensures AllChecked(h, p, Some(ch)) <==> AllPass(h, p, ch)
  {
    hide VerifyWith, CostOk;
    forall i | 0 <= i < |p.candidates|
      ensures CheckCandidate(h, p, Some(ch), i).Ok? <==> VerifyWith(h, p.candidates[i], ch).Ok? && CostOk(p, i)
    {
    }
  }

  /** Why batched verification rejects: when models differ, for per-candidate reasons. */
  ghost predicate BatchRejected(h: HashFn, p: PlanningProof, e: Error) {
    if |p.candidates| == 0 || |p.costs| != |p.candidates| || !AllSame(p.candidates) then PlanRejected(h, p, e)
    else if BatchFor(h, p.candidates).Err? then e == BatchFor(h, p.candidates).error
    else Rejects(h, p, Some(SharedChallenges(h, p.candidates)), e)
  }

  method VerifyPlanningBatched(h: HashFn, p: PlanningProof) returns (r: Result<(), Error>)
    ensures r.Ok? <==> BatchAccepted(h, p)
    ensures r.Err? ==> BatchRejected(h, p, r.error)
  {
    hide AllPass, PlanAccepted, AllChecked, FirstFailure, FirstMin, BatchMaps, BatchState, DistinctIds, AllSame;
    if |p.candidates| == 0 { return Err(V.NoCandidates); }
    if |p.costs| != |p.candidates| { return Err(V.ArgminViolation); }
    var cs := p.candidates;
    var same := CheckSame(cs);
    if !same {
      r := VerifyPlanning(h, p);
      return;
    }
    var maps :- ComputeMaps(h, BatchState(h, cs), cs[0].weights, DistinctIds(cs[0].graph));
    SharedVerdict(h, p, Batched(maps.0, maps.1));
    var _ :- CheckCandidates(h, p, Some(Batched(maps.0, maps.1)));
    var sel := VerifyArgmin(p.costs, p.selectedIndex, p.selectedCost);
    if sel.Err? { return Err(V.ArgminViolation); }
    r := Ok(());
  }

  // --------------------------------------------------------------------- the prover

  datatype PlanError = Prove(e: ProveError) | NoCandidates | BadHistory | CostOverflow

  /** What proving one candidate yields: its artifact and its cost. */
  predicate ProvedCandidate(h: HashFn, m: Model, input: seq<int>, goal: seq<int>, ob: OutputBinding, a: AuditArtifact,
                            cost: int)
  {
    ProveFeedforward(h, m, input, ob) == Ok(a) && Mse(ClaimedValues(a), goal) == Some(cost)
  }

  /** One candidate proved and scored. */
  function ProveCandidate(h: HashFn, m: Model, input: seq<int>, goal: seq<int>, ob: OutputBinding):
    Result<(AuditArtifact, int), PlanError>
  {
    var a :- ProveFeedforward(h, m, input, ob).MapErr(e => Prove(e));
    var cost :- Mse(ClaimedValues(a), goal).OkOr(CostOverflow);
    Ok((a, cost))
  }

  /** A plan assembled from one proof per candidate input, naming the first minimum. */
  ghost predicate ProvedPlan(h: HashFn, m: Model, inputs: seq<seq<int>>, goal: seq<int>, ob: OutputBinding,
                             p: PlanningProof)
  {
    && |inputs| > 0 && |p.candidates| == |p.costs| == |inputs| && p.goal == goal
    && (forall i :: 0 <= i < |inputs| ==> ProvedCandidate(h, m, inputs[i], goal, ob, p.candidates[i], p.costs[i]))
    && SelectionOk(p)
  }

  method ProvePlanning(h: HashFn, m: Model, inputs: seq<seq<int>>, goal: seq<int>, ob: OutputBinding)
    returns (r: Result<PlanningProof, PlanError>)
    ensures r.Ok? ==> ProvedPlan(h, m, inputs, goal, ob, r.value)
    ensures |inputs| == 0 ==> r == Err(NoCandidates)
    ensures |inputs| > 0 && r.Err? ==>
              exists i :: 0 <= i < |inputs| && ProveCandidate(h, m, inputs[i], goal, ob) == Err(r.error)
                && forall j :: 0 <= j < i ==> ProveCandidate(h, m, inputs[j], goal, ob).Ok?
  {
    hide ProveFeedforward;
    if |inputs| == 0 { return Err(NoCandidates); }
    var candidates: seq<AuditArtifact> := [];
    var costs: seq<int> := [];
    for i := 0 to |inputs|
      invariant |candidates| == |costs| == i
      invariant forall j :: 0 <= j < i ==> ProvedCandidate(h, m, inputs[j], goal, ob, candidates[j], costs[j])
      invariant forall j :: 0 <= j < i ==> ProveCandidate(h, m, inputs[j], goal, ob).Ok?
    {
      var a := ProveFeedforward(h, m, inputs[i], ob);
      if a.Err? { return Err(Prove(a.error)); }
      var cost := MseCost(ClaimedValues(a.value), goal);
      if cost.None? { return Err(CostOverflow); }
      candidates, costs := candidates + [a.value], costs + [cost.value];
    }
    var best := ArgMin(costs);
    r := Ok(PlanningProof(candidates, goal, costs, best.value.0, best.value.1));
  }
}
