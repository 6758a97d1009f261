# Verification of the commit-and-audit proof system

A prover runs an exact-integer neural predictor and publishes every intermediate value;
a verifier checks the linear layers with one random inner product each, recomputes
everything else, and never reruns a linear. This project models both sides, the circuit
compiler that produces what they run, and the commitments that bind it, and proves that
they fit together.

Run `dafny verify dfyconfig.toml`.

## How the pieces connect

- **Arithmetic.** `Field`, `FixedPoint`, `Kernels`: Mersenne folding, requantization,
  layer normalization, softmax, matmul. Each is tied to the plain integer function it is
  meant to be.
- **One audited linear.** `Freivalds`, `Soundness`, `Primality`: the check accepts exactly
  the challenges orthogonal to the error modulo p = 2^61-1, the range guard turns
  congruence into equality, and exactly p^(rows-1) of p^rows challenges let a wrong
  accumulator through. Such a challenge *escapes*; every soundness theorem concludes
  "exact, or a challenge drawn on this run escaped", and `BlockAudit.EscapesAreRare`
  counts them.
- **Blocks.** `Blocks`, `BlockProver`, `BlockVerifier`, `BlockAudit`: the named-buffer op
  list, the two interpreters of it, soundness and completeness for arbitrary op lists.
- **Feed-forward traces.** `Traces`, `FeedForward`, `ModelMeaning`, `FeedForwardVerifier`,
  `FeedForwardAudit`, `FeedForwardHonest`, `Sampling`, `Planning`, `PlanningAudit`,
  `Rollout`: the op list of a model and what it computes; one challenge-free verdict, which
  every audit mode reaches unless a challenge escapes; hence soundness, completeness, and
  agreement of the modes.
- **The compiler.** `IntegerForward` is the direct layer-by-layer semantics on matrices;
  `Circuit` and `CircuitBuilder` flatten a step into ops; `SoftmaxAgreement`,
  `FlatKernels`, `CircuitProof` and `CircuitMeaning` prove that the ops compute the direct
  semantics.
- **Ranges.** `Overflow` says when every intermediate value of a kernel fits an i64, and
  `Machine` runs the kernels on 64-bit words under that condition alone;
  `Ranges` is a range analysis of op lists that implies it, and implies the verifier's
  guards; `CircuitRanges` and `CircuitAccepted` prove that compiled circuits pass it, so
  their honest proofs never overflow and are always accepted.
- **Challenges.** `Transcripts`, `Drawing`: the hash chain, and what a drawn challenge is,
  byte by byte and word by word; every vector is drawn under some hash.
- **Binding.** `Codec`, `Reading`, `Layouts`, `Merkle`, `Commitments`, `Lookups`, `Predictor`,
  `Binding`, `FeedForwardBinding`, `EndToEnd`: the hash is an uninterpreted parameter, and
  each binding result is a function that computes two colliding inputs from the data that
  would break it.

Where the code loops or updates fields, a method with the same loop or a class with the
same fields is proved equal to a specification function, and the theorems are about that
function.

Places where the code and its comments differ, with the code followed:

- The comment beside the variance table bounds a modulated value by 255; its range is
  [-256, 254]. The width is still 510, so the table domain is right
  (`IntegerForward.ModulateRange`).
- The margin test of the range guard assumes weights of magnitude at most 127, but int8
  weights reach -128. The guard is exact for all int8 weights iff the layer has at most
  2^24 columns (`Soundness.GuardExactness`). Soundness theorems carry that condition;
  completeness theorems do not need it.
- The prover's softmax truncates toward zero, the Python reference floors. They agree on
  every row iff the exp entries that can be read have one sign and the scale is
  nonnegative, or one of the two is zero throughout (`SoftmaxAgreement.AgreeIff`); a table
  with one negative entry separates them (`SoftmaxAgreement.NegativeEntryDiffers`).
- A plan can be proved for a goal of another length than the model's output, because the
  cost pairs entries; the verifier rejects it (`PlanningAudit.ProvedAndRejected`; the
  exact condition is `PlanningAudit.PlanComplete`).
- The comment on the transcript prefix has the caller absorb the model, quantization and
  planner commitments before the trace root; the audit transcript absorbs the trace root
  only, and binds the others through the public input's digest
  (`FeedForwardBinding.AuditClash`).
- The comment on the transcript says absorbs and squeezes never collide; a squeeze is an
  absorb under the label "squeeze", and coincides with that one only
  (`Drawing.DomainsApart`).
- Decoding an op spec or record casts a u64 shift to u32, so two strings decode to one
  value (`Reading.ShiftAliases`).

## Model

| member | source | states |
|---|---|---|
| `CircuitMeaning.CircuitMeansForward` | crates/pwm-testkit/src/lewm_predictor.rs:534-569 | for every weights, inputs, shifts and tables on which the direct semantics is defined, and dims whose products fit u32, with an exp table and scale on which truncating and flooring softmax agree (`SoftmaxAgreement.SoftmaxSafe`: no negative entry and no negative scale, for instance): proving the block compiled for them succeeds and leaves exactly the direct result in its output buffer |
| `CircuitMeaning.CircuitNeverStuck` | crates/pwm-testkit/src/lewm_predictor.rs:534-569 | on int8 inputs with tables over [-128,127], [0,510^2] and [-255,0] and a softmax that cannot vanish, the direct step is defined and proving the built block meets no missing buffer, shape or table error (i64 overflow: `CircuitAccepted.CircuitNeverTraps`) |
| `CircuitMeaning.VerifiedMeansForward` | crates/pwm-verifier/src/lib.rs:661-670 | an accepted block with the built skeleton returns the direct result, or a challenge drawn on the way escaped |
| `CircuitMeaning.CircuitWellBound` | crates/pwm-testkit/src/lewm_predictor.rs:168-179 | a built circuit references only two-dimensional int8 weights and no bias, so the range guard covers every linear in it when no layer is wider than 2^24 |
| `CircuitMeaning.BlocksNumbered` | crates/pwm-testkit/src/lewm_predictor.rs:168-179 | at every depth the k-th registered weight carries id 1000+k, and later blocks only append weights |
| `CircuitMeaning.BuiltInOrder` | crates/pwm-testkit/src/lewm_predictor.rs:147-197 | in a built block op i carries id i+1 and writes the next buffer, every op clamps to int8 with nearest-even rounding and names the table its kernel is for, the declared inputs are buffers 0 and 1, the output is the last buffer, and weight k has id 1000+k and scale id 10+k |
| `CircuitAccepted.CircuitAccepted` | crates/pwm-testkit/src/lewm_predictor.rs:534-569 | whatever the hash, the honest proof of a compiled circuit within the caps on dimensions, shifts and table entries is accepted and returns the direct result |
| `CircuitAccepted.CircuitInI64` | crates/pwm-prover/src/lib.rs:242-656 | on int8 inputs within the caps no kernel of the run of a compiled circuit forms a value outside i64, and every claim is inside the range and shift guards |
| `CircuitAccepted.CircuitNeverTraps` | crates/pwm-testkit/src/lewm_predictor.rs:534-569 | with covering tables as well: the direct step is defined, its circuit is proved without error or overflow, and the proof is accepted |
| `CircuitRanges.BlockMakes` | crates/pwm-testkit/src/lewm_predictor.rs:447-481 | the range analysis passes one ConditionalBlock on int8 buffers and finds its output int8 |
| `CircuitRanges.ModestInCaps` | crates/pwm-testkit/src/lewm_predictor.rs:534-569 | widths below 2^16, int8 activation tables, other entries below 2^31 and scales up to 2^16 are within the caps |
| `Ranges.RunSound` | crates/pwm-prover/src/lib.rs:242-656 | for any op list the range analysis passes: the run stays inside i64 at every op, its claims stay inside every guard, and the final buffers are within the inferred bounds |
| `Ranges.InferSound` | crates/pwm-core/src/predictor.rs:38-235 | one op: no product, running sum, rounding offset or table index outside i64 on buffers within their bounds |
| `Ranges.LayerNormInRange` | crates/pwm-core/src/predictor.rs:127-158 | the sums, squares, roundings and scaled entries of a normalization of n entries of magnitude m fit i64 under four product bounds |
| `Ranges.SoftmaxInRange` | crates/pwm-core/src/predictor.rs:166-182 | shifted scores, table indices, running sums, scaled entries and quotients of a softmax fit i64, and its entries stay within the scale |
| `Machine.LayerNormWords` | crates/pwm-core/src/predictor.rs:127-158 | on words that satisfy `Overflow.LayerNormFits`, the i64 loops trap nowhere and return the words of the unbounded normalization, None included |
| `Machine.SoftmaxRowsWords` | crates/pwm-core/src/predictor.rs:221-235 | the same for the row-wise softmax, also when a row fails part way |
| `Machine.MatMulWords` | crates/pwm-core/src/predictor.rs:189-216 | the same for the matrix product, row by row and accumulator by accumulator |
| `Machine.LinearWords` | crates/pwm-core/src/predictor.rs:39-60 | the same for the dense linear |
| `Machine.ModulateWords` | crates/pwm-core/src/predictor.rs:62-94 | the same for the modulation of zipped vectors |
| `Machine.GateWords` | crates/pwm-core/src/predictor.rs:96-114 | the same for the gate |
| `Machine.AddWords` | crates/pwm-core/src/predictor.rs:116-119 | the same for the residual sum |
| `Machine.RequantWords` | crates/pwm-core/src/fixed_point.rs:290-345 | the same for requantization: power of two, split, rounding, zero point, clamp |
| `SoftmaxAgreement.AgreeIff` | crates/pwm-core/src/predictor.rs:166-182 | the truncating softmax and the flooring one of the Python reference agree on every row, errors included, iff the entries that can be read have one sign and the scale is nonnegative, or one of the two is zero throughout |
| `SoftmaxAgreement.NonnegativeIsSafe` | crates/pwm-export/python/pwm_export/predictor_quant.py:79-79 | exponential tables, nonnegative with a nonnegative scale, are among them |
| `SoftmaxAgreement.NegativeEntryDiffers` | crates/pwm-export/python/pwm_export/predictor_quant.py:307-316 | entries -1 and 3, scores 0 and -1, scale 1: [1, 0] against [1, -1] |
| `CircuitProof.BlockSim` | crates/pwm-testkit/src/lewm_predictor.rs:447-481 | one ConditionalBlock, run by the prover, computes one block of the direct semantics |
| `CircuitProof.AttnSim` | crates/pwm-testkit/src/lewm_predictor.rs:390-426 | the attention ops compute the direct attention: LN, fused projection, per-head column bands, scores, softmax, mix, reassembly, out-projection |
| `CircuitProof.FfnSim` | crates/pwm-testkit/src/lewm_predictor.rs:429-443 | the feed-forward ops compute the direct GELU feed-forward |
| `CircuitProof.HeadsAreParts` | crates/pwm-testkit/src/lewm_predictor.rs:416-423 | the per-position slices of the head buffers, concatenated, are the matrix obtained by writing each head's columns |
| `CircuitProof.LnPerPosSim` | crates/pwm-testkit/src/lewm_predictor.rs:353-361 | slicing, normalizing and concatenating row by row is normalization of every row of the matrix |
| `CircuitProof.ExtractColsSim` | crates/pwm-testkit/src/lewm_predictor.rs:365-370 | slicing a band out of every row and concatenating is the column band of the matrix |
| `CircuitProof.EmitSim` | crates/pwm-testkit/src/lewm_predictor.rs:147-197 | an emitted op gets a fresh buffer: earlier buffers keep their content and the new one holds the op's output |
| `CircuitBuilder.Builder.LnPerPos` | crates/pwm-testkit/src/lewm_predictor.rs:353-361 | the mutable builder appends exactly the ops of the state function and returns the last buffer |
| `CircuitBuilder.Builder.ExtractCols` | crates/pwm-testkit/src/lewm_predictor.rs:365-370 | the same for a column band |
| `CircuitBuilder.Builder.Weight` | crates/pwm-testkit/src/lewm_predictor.rs:168-179 | registers one int8 matrix under the next id and the scale id 10+k |
| `Circuit.U32Truncates` | crates/pwm-testkit/src/lewm_predictor.rs:208-208 | the cast of a dimension keeps a u32 and drops multiples of 2^32 |
| `CircuitBuilder.Heads` | crates/pwm-testkit/src/lewm_predictor.rs:405-423 | the head loop and the position-major reassembly loops |
| `CircuitBuilder.ConditionalBlock` | crates/pwm-testkit/src/lewm_predictor.rs:447-481 | one block, in emission order |
| `CircuitBuilder.BuildPredictorWith` | crates/pwm-testkit/src/lewm_predictor.rs:534-569 | the imperative compiler returns the circuit of the state functions |
| `IntegerForward.ForwardTotal` | crates/pwm-export/python/pwm_export/predictor_quant.py:319-357 | the direct step is total on int8 inputs with covering tables |
| `IntegerForward.ModulateRange` | crates/pwm-export/src/predictor_quant.rs:47-50 | a modulated value lies in [-256, 254], a width of 510, which is what the variance table covers |
| `IntegerForward.LnRowTotal` | crates/pwm-export/python/pwm_export/predictor_quant.py:290-299 | a row spanning at most 510 has its rounded variance inside [0, 510^2], so its lookup succeeds |
| `IntegerForward.GatedResidual` | crates/pwm-export/python/pwm_export/predictor_quant.py:347-347 | the gated residual has the stream's shape and int8 entries |
| `IntegerForwardRun.HeadsRun` | crates/pwm-export/python/pwm_export/predictor_quant.py:337-345 | the loop that writes each head's columns into a blank matrix computes the heads matrix |
| `IntegerForwardRun.ForwardRun` | crates/pwm-export/python/pwm_export/predictor_quant.py:319-357 | the loop that rebinds the stream per block computes the direct semantics |
| `FlatKernels.RequantAgrees` | crates/pwm-core/src/fixed_point.rs:290-345 | the fixed-point requantization equals the numpy one for every integer and shift, negative values included |
| `FlatKernels.LayerNormAgrees` | crates/pwm-core/src/predictor.rs:127-158 | the layer normalization of packed buffers equals the row-wise one of the Python reference, which divides and rounds by its own code (`IntegerForward.PyRoundDiv`), error case included |
| `Kernels.RoundDivIsHalfAway` | crates/pwm-core/src/predictor.rs:21-28 | the reduction division returns q iff q is an integer nearest to a/n, the one farther from zero on a tie |
| `IntegerForward.PyRoundDiv` | crates/pwm-export/python/pwm_export/predictor_quant.py:275-278 | the Python rounding division, with floor division throughout, is the same function |
| `Kernels.TruncDivTruncates` | crates/pwm-core/src/predictor.rs:166-182 | the softmax quotient is the one whose remainder is smaller than the divisor and has the sign of the dividend |
| `FlatKernels.SoftmaxFlat` | crates/pwm-core/src/predictor.rs:221-235 | chunked truncating softmax of a packed buffer is row-wise floored softmax on every safe table and scale |
| `FlatKernels.LinearFlat` | crates/pwm-prover/src/lib.rs:602-637 | the batched linear of a packed buffer is the matrix product with the reshaped weight's transpose |
| `FlatKernels.TimesTransposedFlat` | crates/pwm-core/src/predictor.rs:189-216 | matmul with a transposed right operand is the product of row inner products |
| `FlatKernels.TimesFlat` | crates/pwm-core/src/predictor.rs:189-216 | plain matmul is the matrix product |
| `FlatKernels.ResidualFlat` | crates/pwm-testkit/src/lewm_predictor.rs:471-473 | gate, add and requant on packed buffers are the gated residual |
| `FlatKernels.ModulateFlat` | crates/pwm-core/src/predictor.rs:79-94 | modulation of packed buffers is modulation of matrices |
| `BlockProver.ProveBlockLoop` | crates/pwm-prover/src/lib.rs:242-656 | the loop over one buffer map and a growing op list is the specification run, errors included |
| `BlockProver.RunOp` | crates/pwm-prover/src/lib.rs:270-650 | each op's output or error on the current buffers |
| `BlockProver.LinearLoop` | crates/pwm-prover/src/lib.rs:632-636 | a weight applied to each packed row in turn |
| `BlockProver.LastWriterIsFinal` | crates/pwm-prover/src/lib.rs:697-705 | the reverse search over filled ops finds the final content of any written buffer, also when buffers are overwritten |
| `BlockProver.FilledSkeleton` | crates/pwm-prover/src/lib.rs:237-241 | proving changes nothing in an op but its claimed output |
| `BlockProver.ClaimsIgnored` | crates/pwm-prover/src/lib.rs:237-241 | the claimed outputs given to the prover do not matter |
| `BlockVerifier.AuditBlockLoop` | crates/pwm-verifier/src/lib.rs:675-1028 | the walk over buffers and transcript is the specification audit, first error included |
| `BlockVerifier.AuditOneOp` | crates/pwm-verifier/src/lib.rs:704-1020 | one op audited: verdict and transcript state |
| `BlockVerifier.VerifyBlockRun` | crates/pwm-verifier/src/lib.rs:661-670 | the block transcript is built, then the block audited |
| `BlockVerifier.CheckLookupsLoop` | crates/pwm-verifier/src/lib.rs:1306-1325 | a table is read entry by entry; the first bad lookup or wrong claim decides the error |
| `BlockVerifier.CheckRows` | crates/pwm-verifier/src/lib.rs:981-1020 | every packed row passes under one challenge |
| `BlockAudit.AuditSound` | crates/pwm-verifier/src/lib.rs:675-1028 | if the walk accepts, the exact run reproduces every claim and ends with the same buffers, or some challenge escaped |
| `BlockAudit.AuditBlockSound` | crates/pwm-verifier/src/lib.rs:675-1028 | an accepted block is what the prover computes from its skeleton, and the returned value is the final output buffer, or some challenge escaped; for any transcript state |
| `BlockAudit.BlockSound` | crates/pwm-verifier/src/lib.rs:661-670 | the same for the standalone block transcript |
| `BlockAudit.AuditBlockComplete` | crates/pwm-prover/src/lib.rs:242-656 | whatever the challenges, a proved block over int8 weights of any width is accepted iff every op is inside the range and shift guards and the output buffer exists |
| `BlockAudit.BlockComplete` | crates/pwm-verifier/src/lib.rs:661-670 | the same for the standalone block transcript |
| `BlockAudit.HonestOp` | crates/pwm-verifier/src/lib.rs:704-1020 | an honest op over an int8 weight of any width is accepted iff it is inside its guard |
| `BlockAudit.EscapesAreRare` | crates/pwm-core/src/freivalds.rs:81-117 | an escaping challenge is one of exactly p^(rows-1) among p^rows |
| `Freivalds.DotFpI64` | crates/pwm-core/src/freivalds.rs:61-68 | the field loop computes the zipped integer inner product modulo p, for every length |
| `Freivalds.PrecomputeV` | crates/pwm-core/src/freivalds.rs:104-117 | the nested loops compute r^T W modulo p |
| `Freivalds.CheckLinear` | crates/pwm-core/src/freivalds.rs:81-92 | accepts iff the guards hold and v.x + r.bias is congruent to r.out |
| `Freivalds.MarginIsAWidthBound` | crates/pwm-core/src/freivalds.rs:46-56 | the margin test holds iff 127*cols <= 2^31 |
| `Freivalds.WithinIsEncodable` | crates/pwm-core/src/freivalds.rs:41-44 | the operand bound admits exactly the vectors whose values all encode as M31 residues |
| `Freivalds.HonestIdentity` | crates/pwm-core/src/freivalds.rs:81-117 | v.x + r.bias = r.(W.x + bias) over the integers, by exchanging the sums |
| `Freivalds.CheckMeansOrthogonal` | crates/pwm-core/src/freivalds.rs:81-92 | past the guard the check accepts iff the challenge is orthogonal to the error modulo p |
| `Freivalds.HonestAccepted` | crates/pwm-core/src/freivalds.rs:81-92 | the exact accumulator is accepted under every challenge iff it is in range |
| `Soundness.GuardGivesEquality` | crates/pwm-core/src/freivalds.rs:38-56 | a guarded claim congruent to the truth is the truth, coordinate by coordinate |
| `Soundness.UnitChallengesDecide` | crates/pwm-core/src/freivalds.rs:38-92 | accepted under every unit challenge iff out = W.x + bias over the integers |
| `Soundness.AccumulatorsFit` | crates/pwm-core/src/predictor.rs:38-57 | no partial sum of a guarded linear leaves i64 |
| `Soundness.GuardExactness` | crates/pwm-core/src/freivalds.rs:38-56 | for int8 weights the guard makes congruence equality iff the layer has at most 2^24 columns |
| `Soundness.AliasedForgery` | crates/pwm-core/src/freivalds.rs:38-56 | a wider layer inside the margin, with weights -128, has a guarded false claim that every challenge accepts |
| `Soundness.OneCoordinate` | crates/pwm-core/src/freivalds.rs:81-117 | with the other coordinates fixed, exactly one value of the challenge at a nonzero coordinate of the error is orthogonal to it |
| `Soundness.OneChallenge` | crates/pwm-core/src/freivalds.rs:81-117 | at a wrong coordinate of a guarded accumulator, with the other challenge coordinates fixed, the check accepts for exactly one value of that coordinate |
| `Soundness.EscapeCount` | crates/pwm-core/src/freivalds.rs:81-117 | of the p^rows challenges exactly p^(rows-1) accept a guarded wrong accumulator, and all accept the right one |
| `Primality.AuditModulusIsPrime` | crates/pwm-core/src/field.rs:113-121 | 2^61-1 is prime, by a checked certificate |
| `Field.Reduce64` | crates/pwm-core/src/field.rs:170-179 | every u64 folds to its canonical residue modulo 2^61-1 |
| `Field.Reduce128` | crates/pwm-core/src/field.rs:182-198 | so does every u128 |
| `Field.Add` | crates/pwm-core/src/field.rs:148-154 | addition modulo p |
| `Field.Sub` | crates/pwm-core/src/field.rs:155-163 | subtraction modulo p |
| `Field.Mul` | crates/pwm-core/src/field.rs:164-167 | multiplication modulo p |
| `Field.FromI64` | crates/pwm-core/src/field.rs:137-147 | every i64, negative ones included, maps to its residue modulo p |
| `Field.TryEncode` | crates/pwm-core/src/field.rs:84-102 | encoding succeeds iff the value is in the signed range, and decodes back |
| `Field.EncodeInvertsDecode` | crates/pwm-core/src/field.rs:105-112 | every canonical M31 residue decodes to a value that encodes to it |
| `FixedPoint.RescaleIsCorrectRounding` | crates/pwm-core/src/fixed_point.rs:290-329 | the result is the nearest integer with ties to even, respectively the truncated quotient, and nothing else is |
| `FixedPoint.RescaleIsOdd` | crates/pwm-core/src/fixed_point.rs:290-329 | both rounding modes are odd functions |
| `FixedPoint.RequantizeIsMonotone` | crates/pwm-core/src/fixed_point.rs:333-345 | requantization is nondecreasing through zero point and clamp, and lands in the clamp range |
| `FixedPoint.RequantizeMeaning` | crates/pwm-core/src/fixed_point.rs:341-345 | requantization is the correctly rounded quotient plus the zero point, or the nearer clamp bound when that is outside |
| `FixedPoint.ShiftFitsI64` | crates/pwm-core/src/fixed_point.rs:264-275 | a shift is valid iff its power of two is an i64 |
| `FeedForward.DiscNames` | crates/pwm-core/src/fixed_point.rs:230-236 | a discriminant byte decodes to a rounding mode iff it is that mode's byte |
| `FixedPoint.NewBounded` | crates/pwm-core/src/fixed_point.rs:85-104 | construction succeeds iff the bounds are ordered, contain the value and lie in the signed range |
| `Kernels.ComputeSoftmax` | crates/pwm-core/src/predictor.rs:166-182 | the loops compute table values of shifted scores over their sum |
| `Kernels.ComputeSoftmaxRows` | crates/pwm-core/src/predictor.rs:221-235 | softmax over consecutive chunks; None on a length the row length does not divide |
| `Kernels.ComputeMatMul` | crates/pwm-core/src/predictor.rs:189-216 | the triple loop computes the matrix of inner products; None on wrong lengths |
| `Kernels.SoftmaxMass` | crates/pwm-core/src/predictor.rs:166-182 | entries lie in [0, one] and sum to within (one - len, one] |
| `Kernels.SoftmaxShiftInvariant` | crates/pwm-core/src/predictor.rs:166-182 | adding a constant to all scores changes nothing |
| `Kernels.SoftmaxOrder` | crates/pwm-core/src/predictor.rs:166-182 | probabilities are ordered like scores when the table is nondecreasing |
| `Kernels.AttentionBounded` | crates/pwm-core/src/predictor.rs:166-216 | a probability-weighted sum of values bounded by m is bounded by one*m |
| `Kernels.VarianceBound` | crates/pwm-core/src/predictor.rs:127-158 | the rounded mean stays in the range of the entries and the rounded variance below the square of its width |
| `Codec.RoundTrip` | crates/pwm-core/src/serialize.rs:39-87 | decoding an encoding gives the value back and consumes exactly it, whatever follows, for lengths below 2^32 |
| `Codec.PrefixFree` | crates/pwm-core/src/serialize.rs:201-320 | no encoding is a proper prefix of another |
| `Codec.AcceptedReencodes` | crates/pwm-core/src/serialize.rs:201-320 | accepted bytes re-encode to themselves iff no u64 shift field in them exceeds u32 |
| `Reading.CanonicalIff` | crates/pwm-core/src/serialize.rs:47-51 | a string decodes to a value with no shift truncated iff the value is well typed (tensor shapes whose running product never leaves u64 included) and the string is its encoding |
| `Reading.CanonicalNoShift` | crates/pwm-core/src/serialize.rs:279-320 | for kinds without such a shift the accepted strings are exactly the encodings |
| `Reading.UnshiftedKinds` | crates/pwm-core/src/public_input.rs:52-91 | Tensor, Scale, activation table and PublicInput are such kinds |
| `Reading.ShiftAliases` | crates/pwm-core/src/graph.rs:150-170 | an op spec string with shift 2^32 is accepted as shift 0 and re-encodes to other bytes |
| `Layouts.OpLayout` | crates/pwm-core/src/block.rs:351-566 | the bytes of every block op: tag, then each field at its width, in the order the encoder pushes them |
| `Layouts.SpecLayout` | crates/pwm-core/src/graph.rs:95-147 | the same for op specs |
| `Layouts.RecordLayout` | crates/pwm-core/src/trace.rs:208-218 | the same for trace records |
| `Layouts.TensorLayout` | crates/pwm-core/src/serialize.rs:288-301 | the same for tensors and their cells |
| `Layouts.PublicLayout` | crates/pwm-core/src/public_input.rs:52-71 | the same for the public input, in declaration order |
| `Layouts.TableLayout` | crates/pwm-core/src/tables.rs:54-60 | the same for activation tables |
| `Layouts.ScaleLayout` | crates/pwm-core/src/serialize.rs:365-371 | the same for scales |
| `Layouts.ModelLayout` | crates/pwm-core/src/commit.rs:135-160 | the model binding is architecture, weight root and two versions, both 1 |
| `Layouts.QuantLayout` | crates/pwm-core/src/commit.rs:178-204 | the quantization binding is two zero policy bytes, the scales and the table commitment |
| `Layouts.PlannerLayout` | crates/pwm-core/src/commit.rs:220-244 | the planner sentinel commits to sixteen zero bytes |
| `Layouts.TypedTensor` | crates/pwm-core/src/serialize.rs:303-330 | every value decoded as a tensor is one the tensor constructor accepts |
| `Layouts.LeavesAreNotNodes` | crates/pwm-core/src/block.rs:20-25 | no op, record or tensor leaf hashes the string of an inner node of its tree |
| `Codec.OverflowBeforeZero` | crates/pwm-core/src/tensor.rs:122-128 | a zero dimension does not excuse an overflow before it: the empty tensor of shape [2^32-1, 2^32-1, 2^32-1, 0] is rejected |
| `Reading.Reader.Take` | crates/pwm-core/src/serialize.rs:66-78 | the next n bytes, or the end-of-input error, and the advanced cursor |
| `Reading.Reader.Decode` | crates/pwm-core/src/serialize.rs:125-320 | one value of any kind decoded from the cursor, with the specification's value, error and remainder |
| `Reading.Reader.DecodeMany` | crates/pwm-core/src/serialize.rs:239-247 | the item loop of a vector |
| `Reading.FromCanonicalBytes` | crates/pwm-core/src/serialize.rs:47-51 | a whole string: trailing bytes are an error |
| `Transcripts.Transcript.Absorb` | crates/pwm-core/src/transcript.rs:78-87 | the state becomes the hash of tag, state and length-prefixed label and data |
| `Transcripts.Transcript.SqueezeInto` | crates/pwm-core/src/transcript.rs:97-113 | the state advances and the output is its counter-mode expansion |
| `Transcripts.Transcript.ChallengeFp61Vec` | crates/pwm-core/src/transcript.rs:135-145 | the state advances by one squeeze and the vector is the one of `Drawing.ChallengeAt` |
| `Drawing.SqueezedByte` | crates/pwm-core/src/transcript.rs:97-113 | byte j of a squeeze is byte j mod 32 of the hash of "expand", two NULs, the seed and counter j/32 |
| `Drawing.ChallengeAt` | crates/pwm-core/src/transcript.rs:135-145 | coordinate i of a drawn vector is bytes 8i to 8i+7 of the squeeze, least significant first, modulo 2^61-1 |
| `Drawing.WordsOfLaid` | crates/pwm-core/src/transcript.rs:135-145 | reading words inverts laying field elements out as 8 bytes each |
| `Drawing.AnyChallenge` | crates/pwm-core/src/transcript.rs:97-145 | every vector over the audit field whose bytes can be counted in 64 bits is drawn under some hash, from any state and label |
| `Drawing.DomainsApart` | crates/pwm-core/src/transcript.rs:51-87 | opening, absorbing and expanding never hash one string, and a squeeze hashes what an absorb does only under the label "squeeze" |
| `Transcripts.ChainClash` | crates/pwm-core/src/transcript.rs:64-92 | two different absorb chains from one start that end in one state yield the two colliding strings |
| `Merkle.ComputeRoot` | crates/pwm-core/src/trace.rs:270-295 | the halving loops compute the root, duplicating an odd last node |
| `Merkle.RootClash` | crates/pwm-core/src/block.rs:582-607 | different leaf lists of one length with one root yield a colliding node |
| `Merkle.OddLevelPads` | crates/pwm-core/src/block.rs:582-607 | across lengths the root does not bind: three leaves and their padded four share it |
| `Blocks.AbsorbBlockWitness` | crates/pwm-core/src/block.rs:619-629 | the root, then every input buffer's id and values, are absorbed in order |
| `Binding.PredictorClash` | crates/pwm-core/src/audit.rs:206-214 | different statements (public input, ops of equal number, input buffers) with the same predictor transcript yield a collision |
| `Binding.BlockRootClash` | crates/pwm-core/src/block.rs:582-607 | different op lists of equal length with the same block root yield a collision |
| `Binding.OpValueInjective` | crates/pwm-core/src/block.rs:351-566 | the encoded fields determine the op |
| `Binding.WiringNotAbsorbed` | crates/pwm-core/src/block.rs:619-660 | the declared input list and the output buffer id enter neither the transcript nor the architecture commitment |
| `Commitments.CommitClash` | crates/pwm-core/src/commit.rs:40-46 | equal commitments to different payloads yield a collision |
| `Commitments.WeightsClash` | crates/pwm-core/src/commit.rs:79-116 | equal weight roots over equally many tensors that differ in id order yield a collision |
| `Commitments.WeightsRootOrderFree` | crates/pwm-core/src/commit.rs:79-116 | the order in which tensors are listed does not change the weight root when ids tell them apart |
| `Commitments.QuantClash` | crates/pwm-core/src/commit.rs:178-204 | equal quantization commitments over different scales or tables (in id order) yield a collision |
| `Commitments.OutputClash` | crates/pwm-core/src/commit.rs:53-58 | equal output commitments to different tensors yield a collision |
| `Commitments.PublicValueInjective` | crates/pwm-core/src/public_input.rs:52-71 | the encoded fields determine the public input |
| `Sorting.SortSorts` | crates/pwm-core/src/commit.rs:79-91 | the sort is a sorted permutation of the entries |
| `Sorting.SortUnique` | crates/pwm-core/src/tables.rs:75-79 | when keys determine entries the sorted list does not depend on the input order |
| `Sorting.SortStable` | crates/pwm-core/src/commit.rs:79-91 | entries with one key keep their order, so the first of them is the first of the input |
| `Lookups.TensorsAlike` | crates/pwm-core/src/audit.rs:78-80 | tensor lists that agree in id order answer every lookup alike |
| `Lookups.TablesAlike` | crates/pwm-core/src/audit.rs:83-85 | so do table lists |
| `Predictor.VerifyPredictorRun` | crates/pwm-verifier/src/lib.rs:1048-1122 | gates, recomputed commitments, transcript, audit, output: the specification verdict |
| `Predictor.ProvePredictorRun` | crates/pwm-prover/src/lib.rs:684-749 | run, reverse search for the output, commitments: the specification artifact or error |
| `Predictor.PredictorSound` | crates/pwm-verifier/src/lib.rs:1048-1122 | an accepted artifact's statement and output commitment hold, and its output is what the prover computes from its skeleton on the committed inputs, or some challenge escaped |
| `Predictor.AcceptedIff` | crates/pwm-verifier/src/lib.rs:1048-1122 | accepted iff version, relation, statement type, model, quantization, planner and input commitments hold, the audit returns the claimed values, and the public input commits to them as a vector of exact cells |
| `Predictor.PredictorComplete` | crates/pwm-prover/src/lib.rs:684-749 | a proved artifact over int8 weights is accepted iff its ops are inside the guards and the carried root yields the recomputed model commitment; its output is the final output buffer |
| `Predictor.CarriedRootClash` | crates/pwm-prover/src/lib.rs:677-683 | a carried root other than the recomputed one is accepted only with a collision |
| `EndToEnd.CommittedMeansForward` | crates/pwm-verifier/src/lib.rs:1048-1122 | an accepted proof that carries the compiled circuit's skeleton, weights and inputs and the committed tables (weights and tables up to listing order) returns the direct semantics' result, or some challenge escaped |
| `EndToEnd.CommittedAccepted` | crates/pwm-prover/src/lib.rs:684-749 | within the caps the honest proof of a compiled predictor can be assembled, carries the direct result and is accepted, whatever challenges the hash yields |
| `EndToEnd.SubstitutionClash` | crates/pwm-verifier/src/lib.rs:1048-1122 | an accepted proof for a circuit's commitments that carries another skeleton, other weights, inputs, scales or tables yields a collision |
| `FeedForward.Run` | crates/pwm-export/src/reference.rs:136-286 | the layer loop builds trace, graph and output together, as the run that `ModelMeaning.RunMeans` describes |
| `ModelMeaning.RunMeans` | crates/pwm-export/src/reference.rs:136-286 | a run succeeds iff every weight is a matrix and the composition of the ops listed by the layers alone (optional norm, linear, requant, optional activation, with their ids and parameters) is defined on the input; it then emits exactly those ops and ends with exactly that composition |
| `ModelMeaning.ProofMeans` | crates/pwm-prover/src/lib.rs:63-120 | a proof carries the model's own op list and claims its composition on the input |
| `FeedForward.OutputTensor` | crates/pwm-core/src/audit.rs:235-246 | succeeds iff every value is in the signed range and the length fits u32, and then holds exactly the values |
| `FeedForward.EncodeInput` | crates/pwm-prover/src/lib.rs:88-91 | succeeds iff every value is in the signed range, and decodes back |
| `FeedForward.FirstOutsideIs` | crates/pwm-export/src/reference.rs:256-281 | the entry named by a table-domain error is the first outside the table |
| `FeedForwardVerifier.VerifyWithRun` | crates/pwm-verifier/src/lib.rs:374-465 | the shared body computes the verdict of `FeedForwardBinding.AcceptedIff` and its first error |
| `FeedForwardBinding.AcceptedIff` | crates/pwm-verifier/src/lib.rs:374-465 | in every mode: accepted iff version, relation, statement type, model, quantization and planner commitments hold, the graph is the static part of the trace, the walk from the decoded public input ends with the claimed values, and the public input commits to them |
| `FeedForwardVerifier.ConformsIff` | crates/pwm-verifier/src/lib.rs:1126-1197 | a record conforms to a spec iff the spec is what the record says about its op |
| `FeedForwardBinding.SubstitutionClash` | crates/pwm-verifier/src/lib.rs:374-465 | in every mode, an accepted artifact that carries a graph, weights, scales, tables or output other than the committed ones yields a collision |
| `FeedForwardBinding.AcceptedMeansModel` | crates/pwm-verifier/src/lib.rs:309-313 | an accepted artifact that carries a model's op list, weights and tables (the latter two up to listing order) outputs what the model's run computes on the decoded input, or some challenge escaped |
| `FeedForwardBinding.AuditClash` | crates/pwm-core/src/audit.rs:193-197 | different public inputs, or traces of one length, with the same audit transcript yield a collision |
| `FeedForwardBinding.FiatClash` | crates/pwm-verifier/src/lib.rs:309-313 | so do different artifacts whose audits start from one state |
| `FeedForwardBinding.BatchClash` | crates/pwm-verifier/src/lib.rs:540-551 | a shared planning transcript binds the trace of every candidate |
| `FeedForwardBinding.BatchCountClash` | crates/pwm-verifier/src/lib.rs:540-551 | and how many candidates there are |
| `FeedForwardBinding.TraceRootClash` | crates/pwm-core/src/trace.rs:270-295 | different traces of one length with the same root yield a collision |
| `FeedForwardBinding.GraphClash` | crates/pwm-core/src/graph.rs:205-209 | different op graphs with the same commitment yield a collision |
| `FeedForwardVerifier.Challenger.LinearStep` | crates/pwm-verifier/src/lib.rs:248-298 | the challenge of each mode and the advanced cursor |
| `FeedForwardVerifier.WalkLoop` | crates/pwm-verifier/src/lib.rs:424-439 | the walk over the trace with one running activation |
| `FeedForwardVerifier.ConformanceLoop` | crates/pwm-verifier/src/lib.rs:1126-1197 | the first record that disagrees with its op spec |
| `FeedForwardVerifier.CheckLinearOp` | crates/pwm-verifier/src/lib.rs:1210-1237 | dimension, bias, range and Freivalds checks of one record |
| `FeedForwardAudit.VerdictIsExact` | crates/pwm-verifier/src/lib.rs:374-465 | in any mode, if every linear gets a good challenge and none escapes, the verdict is the challenge-free one: every record exact and in range |
| `FeedForwardAudit.VerifyIsExact` | crates/pwm-verifier/src/lib.rs:309-313 | the Fiat-Shamir audit accepts exactly the exact artifacts |
| `FeedForwardAudit.InteractiveIsExact` | crates/pwm-verifier/src/lib.rs:319-328 | so does the interactive audit, given a vector of the right length per linear |
| `FeedForwardAudit.ExactComputesGraph` | crates/pwm-verifier/src/lib.rs:1126-1197 | an exact artifact's claimed output is the composition of the committed graph's ops on the decoded public input |
| `FeedForwardAudit.VerifySound` | crates/pwm-verifier/src/lib.rs:309-313 | so is an accepted one's, or some challenge escaped |
| `FeedForwardHonest.FeedForwardComplete` | crates/pwm-prover/src/lib.rs:63-120 | the proof of an int8 model whose tensor ids agree is accepted by the Fiat-Shamir audit iff every operand and shift is in range |
| `FeedForwardHonest.CompleteUnder` | crates/pwm-verifier/src/lib.rs:374-465 | so it is under any source of challenges that supplies one per linear |
| `FeedForwardHonest.ProvedIsHonest` | crates/pwm-prover/src/lib.rs:63-120 | a proved artifact carries exact products only, decodes to the input it was proved for, is exact iff in range, and its output has as many entries as the last weight has rows |
| `FeedForwardHonest.RunFaithful` | crates/pwm-export/src/reference.rs:136-286 | the run's records conform to its graph, are wired, and are exact as soon as they are in range |
| `Sampling.VerifySampledRun` | crates/pwm-verifier/src/lib.rs:339-371 | count, draw, verify: the specification verdict and count |
| `Sampling.PickedInRange` | crates/pwm-verifier/src/lib.rs:355-363 | every pick is a linear index and there are at most min(sample, linears) of them |
| `Sampling.PicksAreResidues` | crates/pwm-verifier/src/lib.rs:355-363 | the picks are the residues, modulo the number of linears, of the words drawn up to the draw at which enough distinct ones are picked or the limit is reached |
| `Sampling.AnyPick` | crates/pwm-verifier/src/lib.rs:355-363 | every linear is picked under some hash |
| `Sampling.SeedClash` | crates/pwm-verifier/src/lib.rs:350-352 | two seeds with one selection state yield a collision |
| `Sampling.FullCoverageIsVerify` | crates/pwm-verifier/src/lib.rs:339-371 | when the picks cover every linear, the result is the number of linears iff verify accepts, and verify's error otherwise |
| `Sampling.AllPickedCovers` | crates/pwm-verifier/src/lib.rs:355-363 | as many distinct picks as linears is full coverage |
| `Sampling.SampledSound` | crates/pwm-verifier/src/lib.rs:330-338 | a partial audit leaves every record exact except linears that were not picked, unless a challenge escaped |
| `Selection.MseCost` | crates/pwm-core/src/planning.rs:27-34 | the exact squared distance iff it fits i64; no checked intermediate fails before that |
| `Selection.DistanceIsNorm` | crates/pwm-core/src/planning.rs:27-34 | the cost is the inner product of the entrywise difference with itself |
| `Selection.ArgMin` | crates/pwm-core/src/planning.rs:99-108 | the first index of the least cost, None iff there is none |
| `Selection.VerifyArgmin` | crates/pwm-core/src/planning.rs:69-95 | accepts exactly the first minimum; otherwise the error names the first candidate that is cheaper, or ties earlier |
| `Selection.FirstMinUnique` | crates/pwm-core/src/planning.rs:69-108 | there is only one selection to accept: what argmin returns |
| `Selection.VerifyTopK` | crates/pwm-core/src/planning.rs:140-158 | accepts exactly the duplicate-free selections of k indices that precede every other in (cost, index) order; the first index out of range or repeated decides the error |
| `Selection.OrderFacts` | crates/pwm-core/src/planning.rs:130-134 | the sorted order lists every index once, by cost and then index |
| `Planning.VerifyPlanning` | crates/pwm-verifier/src/lib.rs:477-511 | accepts iff every candidate verifies at its exact cost and the selection is the first minimum; otherwise the error is that of the first candidate that fails, or of the selection |
| `Planning.VerifyPlanningBatched` | crates/pwm-verifier/src/lib.rs:526-601 | the batched verdict and its first error, with the fallback when models differ |
| `Planning.ComputeMaps` | crates/pwm-verifier/src/lib.rs:563-571 | one challenge and one fold per distinct weight, drawn in order |
| `Planning.ProvePlanning` | crates/pwm-prover/src/lib.rs:183-222 | one proof and cost per candidate and the first minimum; otherwise the error of the first candidate without a proof or a cost |
| `PlanningAudit.BatchedIsEquivalent` | crates/pwm-verifier/src/lib.rs:477-601 | when no challenge escapes, batched and per-candidate planning accept the same proofs |
| `PlanningAudit.DistinctIdsAre` | crates/pwm-verifier/src/lib.rs:552-562 | the sorted, deduplicated ids are exactly the weights of the graph's linears |
| `PlanningAudit.DistinctIdsAscend` | crates/pwm-verifier/src/lib.rs:552-562 | each once, in ascending order |
| `PlanningAudit.PlanSound` | crates/pwm-verifier/src/lib.rs:477-511 | an accepted plan names the first candidate whose graph output is exactly closest to the goal, unless a challenge of its own audit escaped |
| `PlanningAudit.PlanComplete` | crates/pwm-prover/src/lib.rs:183-222 | a proved plan of an int8 model is accepted iff every candidate is in range and the model's output length, fixed by its last weight or else the input, is the goal's |
| `PlanningAudit.ProvedAndRejected` | crates/pwm-prover/src/lib.rs:183-222 | a concrete plan that the prover assembles for an empty goal and the verifier rejects |
| `Rollout.VerifyRollout` | crates/pwm-verifier/src/lib.rs:614-649 | accepts iff the history is well formed and every step verifies, reads its window (`Rollout.StepReads`) and outputs the recorded latent; otherwise the error is that of the first step that fails |
| `Rollout.RolloutSound` | crates/pwm-verifier/src/lib.rs:614-649 | at every horizon, the input of step t is entry by entry the last H of the initial latents followed by the trajectory before t, and latent t is step t's graph applied to it |
| `Rollout.WindowSlides` | crates/pwm-prover/src/lib.rs:140-177 | appending a latent to the history appends it to the window; the empty window is empty |
| `Rollout.StepReads` | crates/pwm-verifier/src/lib.rs:627-627 | entry k of the window of step t is the latent at index (number of initial latents) + t - H + k |
| `Rollout.ProvedReads` | crates/pwm-prover/src/lib.rs:140-177 | every step of a proved rollout was proved for that window |
| `Rollout.ProveRollout` | crates/pwm-prover/src/lib.rs:140-177 | the loop proves each step from its window (`Rollout.ProvedReads`) and appends its output until a step has no proof, whose error it returns; a history size past u32 is recorded truncated |
| `Rollout.ProvedUnique` | crates/pwm-prover/src/lib.rs:140-177 | model, initial latents and history size determine every proved step |
| `Rollout.RolloutComplete` | crates/pwm-prover/src/lib.rs:140-177 | a proved rollout of an int8 model is accepted iff every step is in range |

## Left out

- Overflow traps: integers are unbounded here, so a run the original aborts on i64
  overflow continues in the model. `Soundness.AccumulatorsFit` excludes overflow in
  guarded linears, `CircuitAccepted.CircuitInI64` in the compiled circuits within its
  caps, `Ranges.RunSound` in any other op list the analysis passes; kernel by kernel,
  `Machine` shows that those runs trap nowhere. Index arithmetic in usize is not modelled.
- `FixedPoint.Requantize`: does not model the panic of a clamp whose bounds are inverted,
  nor shifts above 62 in the prover, which the verifier rejects.
- `BlockProver.ProveBlockLoop`: does not model debug assertions; a bias longer than the
  output uses its prefix, a shorter one is the `Panic` outcome.
- Buffer, op, weight and table ids are naturals: the builder's u32 counters do not trap.
- `Selection.VerifyTopK`: does not model the cast of candidate indices to u32.
- `CircuitMeaning.CircuitMeansForward`: covers dimensions whose products fit u32
  (`Circuit.FitsU32`), casts beyond that truncating in `Circuit` as in the code, and exp
  tables and scales that are `SoftmaxAgreement.SoftmaxSafe`; on the others the two
  softmaxes differ on some row (`SoftmaxAgreement.AgreeIff`).
- `CircuitAccepted.CircuitInI64`: the caps are sufficient, not necessary; steps beyond
  them may or may not overflow.
- `Planning.ProvePlanning`: does not model the cast of the selected index to u32.
- `EndToEnd.CommittedMeansForward`: requires the artifact's output buffer to be the
  circuit's, because no commitment binds it (`Binding.WiringNotAbsorbed`).
- Binding across op or tensor lists of different lengths: false, since odd Merkle levels
  repeat their last node (`Merkle.OddLevelPads`, `Binding.BlockRootPads`).
- The hash itself, and how hard it is to find collisions or grind challenges: the hash is
  a parameter, and challenge counts and explicit collisions stand in for probabilities.
- Deriving shifts from a quantization scheme, calibration, table generation and the float
  reference: floating point. Shifts and tables are arbitrary parameters.
- Table lookup by id in Python uses a dictionary; the model takes the four tables as
  found by the first-match lookup of the verifier.
- `BoundedInt` arithmetic and `accumulate`: not used by the audited paths.
- CEM sampling, mean and variance: replay equality is determinism.
- Strings in the codec, manifests, JSON bundles, the CLI, logging, metrics and test
  infrastructure: plumbing.
