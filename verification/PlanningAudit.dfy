/**
 * What an accepted plan says, and why sharing the challenges per weight does not change
 * the verdict.
 */
module PlanningAudit {
  import opened Wrappers
  import opened Arith
  import opened Bytes
  import opened Transcripts
  import opened Tensors
  import opened Freivalds
  import opened Commitments
  import opened Traces
  import opened FeedForward
  import opened FeedForwardVerifier
  import opened FeedForwardAudit
  import opened FeedForwardHonest
  import opened Selection
  import opened Planning
  import Sorting
  import V = BlockVerifier
  import Field

  // ------------------------------------------------------- the ids that get a challenge

  lemma {:induction false} DedupKeeps(s: seq<nat>, x: nat)
    ensures x in Dedup(s) <==> x in s
  {
    if |s| > 1 {
      var n := |s| - 1;
      DedupKeeps(s[..n], x);
      assert s == s[..n] + [s[n]];
      assert s[n - 1] in s[..n];
    }
  }

  lemma {:induction false} LinearIdListed(ops: seq<OpSpec>, i: nat)
    requires i < |ops| && ops[i].LinearSpec?
    ensures ops[i].weightId in LinearIds(ops)
  {
    if i < |ops| - 1 { LinearIdListed(ops[..|ops| - 1], i); }
  }

  lemma {:induction false} ListedIsLinear(ops: seq<OpSpec>, x: nat) returns (i: nat)
    requires x in LinearIds(ops)
    ensures i < |ops| && ops[i].LinearSpec? && ops[i].weightId == x
  {
    var n := |ops| - 1;
    if ops[n].LinearSpec? && ops[n].weightId == x {
      i := n;
    } else {
      i := ListedIsLinear(ops[..n], x);
    }
  }

  lemma SortedIds(s: seq<nat>, x: nat)
    ensures x in Sorting.Values(Sorting.Sort<nat>(Planning.Keyed(s))) <==> x in s
  {
    var k: seq<(int, nat)> := Planning.Keyed(s);
    var r: seq<(int, nat)> := Sorting.Sort<nat>(k);
    Sorting.SortSorts<nat>(k);
    if x in s {
      var i :| 0 <= i < |s| && s[i] == x;
      assert k[i] in multiset(r);
      var j :| 0 <= j < |r| && r[j] == k[i];
      assert Sorting.Values(r)[j] == x;
    }
    if x in Sorting.Values(r) {
      var j :| 0 <= j < |r| && r[j].1 == x;
      assert r[j] in multiset(k);
    }
  }

  /** Exactly the weights of the graph's linears. */
  lemma DistinctIdsAre(ops: seq<OpSpec>, x: nat)
    ensures x in DistinctIds(ops) <==> x in LinearIds(ops)
  {
    hide Dedup, LinearIds, Sorting.Sort;
    SortedIds(LinearIds(ops), x);
    DedupKeeps(Sorting.Values(Sorting.Sort<nat>(Planning.Keyed(LinearIds(ops)))), x);
  }

  predicate Ascending(s: seq<nat>) {
    forall i, j :: 0 <= i < j < |s| ==> s[i] < s[j]
  }

  lemma {:induction false} DedupAscends(s: seq<nat>)
    requires forall i, j :: 0 <= i < j < |s| ==> s[i] <= s[j]
    ensures Ascending(Dedup(s)) && |Dedup(s)| <= |s|
    ensures |s| > 0 ==> |Dedup(s)| > 0 && Dedup(s)[|Dedup(s)| - 1] == s[|s| - 1]
  {
    if |s| > 1 { DedupAscends(s[..|s| - 1]); }
  }

  /** Each once, in ascending order. */
  lemma DistinctIdsAscend(ops: seq<OpSpec>)
    ensures Ascending(DistinctIds(ops))
  {
    hide Dedup, LinearIds, Sorting.Sort, Ascending;
    var k: seq<(int, nat)> := Planning.Keyed(LinearIds(ops));
    var r: seq<(int, nat)> := Sorting.Sort<nat>(k);
    Sorting.SortSorts<nat>(k);
    forall i | 0 <= i < |r| ensures r[i].0 == r[i].1 {
      assert r[i] in multiset(r) && r[i] in multiset(k);
    }
    DedupAscends(Sorting.Values(r));
  }

  // ------------------------------------------------------------------ the shared maps

  /** The entry for `id` is a vector of the right length with its fold. */
  predicate EntryOk(ws: seq<TensorT>, m: Maps, id: nat) {
    WeightI8(ws, id).Ok? && id in m.0 && id in m.1 &&
    var (w, rows, cols) := WeightI8(ws, id).value;
    |m.0[id]| == rows && m.1[id] == Reduced(VOf(m.0[id], w, rows, cols))
  }

  lemma {:induction false} MapsOk(h: HashFn, st: Digest, ws: seq<TensorT>, ids: seq<nat>, id: nat)
    requires BatchMaps(h, st, ws, ids).Ok? && id in ids
    ensures EntryOk(ws, BatchMaps(h, st, ws, ids).value.maps, id)
  {
    var n := |ids| - 1;
    if ids[n] != id {
      assert id in ids[..n];
      MapsOk(h, st, ws, ids[..n], id);
    }
  }

  lemma {:induction false} MapsFail(h: HashFn, st: Digest, ws: seq<TensorT>, ids: seq<nat>) returns (id: nat)
    requires BatchMaps(h, st, ws, ids).Err?
    ensures id in ids && WeightI8(ws, id).Err?
  {
    var n := |ids| - 1;
    if BatchMaps(h, st, ws, ids[..n]).Err? {
      id := MapsFail(h, st, ws, ids[..n]);
    } else {
      id := ids[n];
    }
  }

  // ------------------------------------------------------------------ verdicts agree

  /** No challenge drawn for one candidate escapes on it. */
  ghost predicate NoOwnEscape(h: HashFn, p: PlanningProof) {
    forall i :: 0 <= i < |p.candidates| ==> !AuditEscapes(h, p.candidates[i], FiatStart(h, p.candidates[i]))
  }

  /** No challenge shared by the candidates escapes on any of them. */
  ghost predicate NoSharedEscape(h: HashFn, p: PlanningProof) {
    |p.candidates| > 0 && BatchFor(h, p.candidates).Ok? ==>
      forall i :: 0 <= i < |p.candidates| ==> !AuditEscapes(h, p.candidates[i], SharedChallenges(h, p.candidates))
  }

  predicate AllBound(p: PlanningProof) {
    forall i :: 0 <= i < |p.candidates| ==> BoundTrace(p.candidates[i].weights, p.candidates[i].trace)
  }

  /** A conforming trace draws only on ids in the maps. */
  lemma TraceMapsGood(h: HashFn, c0: AuditArtifact, a: AuditArtifact, st: Digest)
    requires SameModel(a, c0) && CheckStatement(h, a).Ok? && BatchMaps(h, st, c0.weights, DistinctIds(c0.graph)).Ok?
    ensures var (rmap, vmap) := BatchMaps(h, st, c0.weights, DistinctIds(c0.graph)).value.maps;
            GoodMaps(a.weights, a.trace, rmap, vmap)
  {
    StatementConforms(h, a);
    hide CheckStatement, BatchMaps, DistinctIds;
    var (rmap, vmap) := BatchMaps(h, st, c0.weights, DistinctIds(c0.graph)).value.maps;
    forall i | 0 <= i < |a.trace| && a.trace[i].LinearRec? && WeightI8(a.weights, a.trace[i].weightId).Ok?
      ensures a.trace[i].weightId in rmap && a.trace[i].weightId in vmap
           && GoodChallenge(a.weights, a.trace[i], (rmap[a.trace[i].weightId], vmap[a.trace[i].weightId]))
    {
      assert Conforms(a.graph[i], a.trace[i]);
      LinearIdListed(a.graph, i);
      DistinctIdsAre(a.graph, a.trace[i].weightId);
      MapsOk(h, st, c0.weights, DistinctIds(c0.graph), a.trace[i].weightId);
    }
  }

  /** One candidate under the shared maps: again the exact verdict. */
  lemma CandidateIsExact(h: HashFn, c0: AuditArtifact, a: AuditArtifact, st: Digest)
    requires SameModel(a, c0) && BatchMaps(h, st, c0.weights, DistinctIds(c0.graph)).Ok?
             && BoundTrace(a.weights, a.trace)
    requires var (rmap, vmap) := BatchMaps(h, st, c0.weights, DistinctIds(c0.graph)).value.maps;
             !AuditEscapes(h, a, Batched(rmap, vmap))
    ensures var (rmap, vmap) := BatchMaps(h, st, c0.weights, DistinctIds(c0.graph)).value.maps;
            VerifyWith(h, a, Batched(rmap, vmap)).Ok? <==> ExactVerify(h, a)
  {
    hide BatchMaps, DistinctIds, AuditEscapes, GoodMaps, WalkTrace, ExactWalk, CheckOutput, BoundTrace;
    if CheckStatement(h, a).Ok? {
      TraceMapsGood(h, c0, a, st);
      var (rmap, vmap) := BatchMaps(h, st, c0.weights, DistinctIds(c0.graph)).value.maps;
      BatchedIsExact(h, a, Batched(rmap, vmap));
    }
  }

  lemma {:induction false} ExactAt(a: AuditArtifact, n: nat, start: seq<int>, i: nat)
    requires i < n <= |a.trace| && ExactWalk(a.weights, a.tables, a.trace[..n], start).Some?
    ensures ExactRec(a.weights, a.tables, a.trace[i])
  {
    hide ExactRec;
    if i < n - 1 {
      assert a.trace[..n][..n - 1] == a.trace[..n - 1];
      ExactAt(a, n - 1, start, i);
    }
  }

  /** A graph with an unresolvable weight has no exact trace. */
  lemma UnresolvedRejected(h: HashFn, a: AuditArtifact, id: nat)
    requires id in DistinctIds(a.graph) && WeightI8(a.weights, id).Err?
    ensures !ExactVerify(h, a)
  {
    hide CheckStatement, CheckOutput, DistinctIds, LinearIds, ExactWalk;
    if ExactVerify(h, a) {
      DistinctIdsAre(a.graph, id);
      var i := ListedIsLinear(a.graph, id);
      StatementConforms(h, a);
      assert Conforms(a.graph[i], a.trace[i]);
      var start := DecodeInput(a.publicInput).value;
      assert a.trace[..|a.trace|] == a.trace;
      ExactAt(a, |a.trace|, start, i);
      assert false;
    }
  }

  /** The challenge-free verdict on a plan. */
  predicate PlanExact(h: HashFn, p: PlanningProof) {
    && |p.candidates| > 0 && |p.costs| == |p.candidates|
    && (forall i :: 0 <= i < |p.candidates| ==> ExactVerify(h, p.candidates[i]) && CostOk(p, i))
    && SelectionOk(p)
  }

  lemma PlanIsExact(h: HashFn, p: PlanningProof)
    requires AllBound(p) && NoOwnEscape(h, p)
    ensures PlanAccepted(h, p) <==> PlanExact(h, p)
  {
    hide ExactVerify, Verify, BoundTrace, AuditEscapes, CostOk, SelectionOk;
    forall i | 0 <= i < |p.candidates| ensures Verify(h, p.candidates[i]).Ok? <==> ExactVerify(h, p.candidates[i]) {
      VerifyIsExact(h, p.candidates[i]);
    }
  }

  /**
   * Batched planning is verdict-equivalent: when no challenge escapes, sharing one
   * challenge per weight accepts exactly the plans per-candidate verification accepts.
   */
  lemma BatchedIsEquivalent(h: HashFn, p: PlanningProof)
    requires AllBound(p) && NoOwnEscape(h, p) && NoSharedEscape(h, p)
    ensures BatchAccepted(h, p) <==> PlanAccepted(h, p)
  {
    hide ExactVerify, Verify, VerifyWith, BoundTrace, AuditEscapes, CostOk, SelectionOk, BatchMaps, DistinctIds,
         BatchState;
    PlanIsExact(h, p);
    var cs := p.candidates;
    if |cs| > 0 && AllSame(cs) {
      var st := BatchState(h, cs);
      if BatchFor(h, cs).Ok? {
        forall i | 0 <= i < |cs| ensures VerifyWith(h, cs[i], SharedChallenges(h, cs)).Ok? <==> ExactVerify(h, cs[i]) {
          CandidateIsExact(h, cs[0], cs[i], st);
        }
      } else {
        var id := MapsFail(h, st, cs[0].weights, DistinctIds(cs[0].graph));
        UnresolvedRejected(h, cs[0], id);
      }
    }
  }

  // -------------------------------------------------------------- what a plan means

  /** The output the committed graph of candidate `i` computes on its public input. */
  function Computed(a: AuditArtifact): Option<seq<int>>
    requires DecodeInput(a.publicInput).Ok?
  {
    Compose(a.graph, BindingsOf(a), DecodeInput(a.publicInput).value)
  }

  /**
   * An accepted plan names the first candidate whose computed output is closest to the
   * goal: every cost is the exact distance of what that candidate's graph computes.
   */
  lemma PlanSound(h: HashFn, p: PlanningProof)
    requires AllBound(p) && NoOwnEscape(h, p) && PlanAccepted(h, p)
    ensures forall i :: 0 <= i < |p.candidates| ==>
              && DecodeInput(p.candidates[i].publicInput).Ok?
              && Computed(p.candidates[i]).Some?
              && p.costs[i] == Distance(Computed(p.candidates[i]).value, p.goal)
    ensures FirstMin(p.costs, p.selectedIndex, p.selectedCost)
  {
    hide Verify, BoundTrace, AuditEscapes, BatchFor, Compose, ExactWalk, CheckStatement, CheckOutput;
    PlanIsExact(h, p);
    forall i | 0 <= i < |p.candidates|
      ensures DecodeInput(p.candidates[i].publicInput).Ok?
           && Computed(p.candidates[i]) == Some(ClaimedValues(p.candidates[i]))
           && p.costs[i] == Distance(ClaimedValues(p.candidates[i]), p.goal)
    {
      assert ExactVerify(h, p.candidates[i]) && CostOk(p, i);
      ExactComputesGraph(h, p.candidates[i]);
    }
  }

  /**
   * A proved plan of an int8 model is accepted exactly when every candidate's operands and
   * shifts are in range and the model's output has the goal's length: the prover's cost
   * pairs entries and does not compare lengths, the verifier does.
   */
  lemma PlanComplete(h: HashFn, m: Model, inputs: seq<seq<int>>, goal: seq<int>, ob: OutputBinding, p: PlanningProof)
    requires ProvedPlan(h, m, inputs, goal, ob, p) && IdsAgree(WeightTensors(m.layers)) && Int8Layers(m.layers)
    ensures PlanAccepted(h, p) <==>
              forall i :: 0 <= i < |p.candidates| ==>
                AllInRange(p.candidates[i].weights, p.candidates[i].trace)
                    && OutputLength(m.layers, |inputs[i]|) == |goal|
  {
    hide Verify, ProveFeedforward, SelectionOk, AllInRange, IdsAgree, Int8Layers, OutputLength, HonestLinear, Int8Trace;
    forall i | 0 <= i < |p.candidates|
      ensures Verify(h, p.candidates[i]).Ok? <==> AllInRange(p.candidates[i].weights, p.candidates[i].trace)
      ensures CostOk(p, i) <==> OutputLength(m.layers, |inputs[i]|) == |goal|
    {
      assert ProvedCandidate(h, m, inputs[i], goal, ob, p.candidates[i], p.costs[i]);
      ProvedIsHonest(h, m, inputs[i], ob, p.candidates[i]);
      FeedForwardComplete(h, m, inputs[i], ob, p.candidates[i]);
    }
  }

  /** A model without layers passes its input through. */
  lemma PassThrough(h: HashFn, ob: OutputBinding) returns (a: AuditArtifact)
    ensures ProveFeedforward(h, Model([], [], []), [1], ob) == Ok(a)
    ensures a.trace == [] && ClaimedValues(a) == [1]
  {
    assert OutputTensor(ob.tensorId, ob.scaleId, [1]).Some? && EncodeInput([1]).Ok?;
    hide P0PublicInput, OutputTensor, EncodeInput;
    a := ProveFeedforward(h, Model([], [], []), [1], ob).value;
  }

  /** The prover does assemble such a plan: here for an output of length 1 and an empty goal. */
  lemma ProvedAndRejected(h: HashFn, ob: OutputBinding) returns (m: Model, p: PlanningProof)
    ensures ProvedPlan(h, m, [[1]], [], ob, p) && !PlanAccepted(h, p)
    ensures IdsAgree(WeightTensors(m.layers)) && Int8Layers(m.layers)
    ensures forall i :: 0 <= i < |p.candidates| ==> AllInRange(p.candidates[i].weights, p.candidates[i].trace)
  {
    hide ProveFeedforward, Verify, InRange;
    m := Model([], [], []);
    var a := PassThrough(h, ob);
    p := PlanningProof([a], [], [0], 0, 0);
    assert ProvedCandidate(h, m, [1], [], ob, a, 0);
    assert !CostOk(p, 0);
  }
}
