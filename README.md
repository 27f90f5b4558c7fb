# Discrete HMM training and classification, modelled in Dafny

This project models the engine of a discrete Hidden Markov Model toolkit
written in C:

- the forward and backward recurrences that fill the α and β tables;
- the state posteriors δ (`calc_delta`) and the state-pair posteriors ε
  (`baum_welch_algo`);
- the Baum–Welch M-step `train_model`, which overwrites the model's initial,
  transition and emission parameters in place;
- the training driver, which computes α, β, δ and ε for every training
  sequence and only then re-estimates;
- Viterbi decoding with its ψ back-pointer table, strict-`>` argmax and
  backtracking;
- the test-side `forward_algo`, which returns P(O | λ), and the loop that
  gives each test sequence the most likely of five models;
- `get_data`, which turns whitespace-separated tokens over the letters
  A–F into symbol sequences 0..5.

Probabilities are Dafny `real`s, so all arithmetic is exact. The C
structs become these Dafny types:

- The `HMM` struct becomes class `Model.Hmm`. Its three parameter buffers
  are arrays. `Hmm.Stores(p)` ties them to a value `p: Lambda`, on which
  the recurrences are defined.
- The `Table` and `Epsilon` buffers become classes with `seqNum`,
  `stateNum` and a fixed `array2`/`array3`.
- An `Observation` becomes a datatype, because C arrays of that struct
  hold values.

Every table-filling method uses nested loops like the C code does. Each
is proved to leave exactly the values of a recursive specification
function in its buffer:

- `Alpha` and `Beta` for α and β;
- `Gamma` and `Xi` for δ and ε;
- `Delta`, `Psi` and `Path` for Viterbi;
- `Reestimate` for the M-step.

The lemmas state what those functions mean:

- the forward and backward derivations of P(O | λ) agree;
- the posteriors are normalised;
- re-estimation yields a stochastic model;
- the Viterbi score is the best path probability and never exceeds the
  forward probability;
- ties go to the lowest index;
- back-pointers stay in range.

The declaration of the `HMM` struct is in hmm.h, which is not part of this
model. Its shape (`state_num`, `observ_num`, `initial`, `transition[i][j]`,
`observation[k][j]` indexed symbol × state) is taken from its uses.

Module map:

- `sums.dfy` (`Sums`): finite sums, batch sums, the running maximum
  `Max0` and its index `ArgMax0` under strict `>`.
- `model.dfy` (`Model`): parameter values and the `Hmm` class.
- `myhead.dfy` (`MyHead`): buffers and `get_data`.
- `recurrences.dfy` (`Recurrences`): forward, backward, δ, ε as
  functions, and their properties.
- `reestimate.dfy` (`Reestimation`): the M-step on values.
- `train.dfy` (`Train`): the methods of train.c.
- `viterbi.dfy` (`Viterbi`): the max-product recurrence as functions.
- `test.dfy` (`Test`): the methods of test.c.
- `scenarios.dfy` (`Scenarios`): worked examples evaluated exactly. They
  cover a 2-state, 2-symbol model on [0, 1, 0] (forward and Viterbi), the
  closed-form update of one iteration on a single sequence, a 1-state
  model that training leaves fixed, and a choice among three models.

Where the code departs from the textbook algorithm, the model follows the code:

- The textbook Viterbi step is a plain `max_i`. The code's
  running maximum starts at 0, so the model computes `max(0, max_i …)`
  (`Sums.Max0`).
- Textbook Baum–Welch replaces the model between iterations. The code
  overwrites it in place after all posteriors of the
  batch are computed. The model keeps the in-place update and proves the
  ordering: `Train.TrainIteration` runs `Train.Expectation` to completion
  under the old parameters, then `Train.TrainModel`.
- `get_data` skips a token that is empty or begins with `'\0'` or `'\n'`.
  The model keeps that branch (`MyHead.Kept`). `MyHead.KeptAll` shows that
  the tokens `fscanf("%s")` reads from a file with no NUL bytes each give exactly one
  observation.
- The uninitialised `arg_max` in `viterbi_algo` and in `main`, and the
  unassigned `q.seq[T-1]`, are modelled as parameters holding their
  indeterminate initial value. A stale value is carried from one
  comparison to the next exactly as in C: ψ keeps the previous pointer
  when every candidate is 0, and `pred[i]` keeps the previous test's
  label when every score is 0.

## Model

| member | source | states |
|---|---|---|
| Train.ForwardAlgo | hw1/dsp_hw1/c_cpp/train.c:11-42 | sets alpha's dimensions to (T, N) and leaves α[t][j] = `Alpha(p, o, t, j)` for every t < T, j < N: α[0][i] = π[i]·b[o₀][i] and α[t+1][j] = (Σᵢ α[t][i]·a[i][j])·b[o_{t+1}][j] |
| Train.ForwardStep | hw1/dsp_hw1/c_cpp/train.c:23-33 | one pass of the induction writes row t+1 of α from row t and keeps rows 0..t |
| Train.BackwardAlgo | hw1/dsp_hw1/c_cpp/train.c:50-75 | sets beta's dimensions and leaves β[t][i] = `Beta(p, o, t, i)`: β[T-1][i] = 1 and β[t][i] = Σⱼ a[i][j]·b[o_{t+1}][j]·β[t+1][j], filled from t = T-2 down to 0 |
| Train.CalcDelta | hw1/dsp_hw1/c_cpp/train.c:83-104 | δ takes α's dimensions, and each row t of δ is α[t][i]·β[t][i] divided by that row's sum, which must be nonzero |
| Train.BaumWelchAlgo | hw1/dsp_hw1/c_cpp/train.c:106-134 | ε takes α's dimensions. For t < T-1 only, ε[t][i][j] is α[t][i]·a[i][j]·b[o_{t+1}][j]·β[t+1][j] divided by the slice sum, which must be nonzero |
| Train.EStep | hw1/dsp_hw1/c_cpp/train.c:213-218 | forward, backward, calc_delta and baum_welch_algo on one sequence leave δ = `Gamma` and ε = `Xi` of the model when P(O \| λ) ≠ 0 |
| Train.Expectation | hw1/dsp_hw1/c_cpp/train.c:213-218 | after the n loop, every sequence's δ and ε hold its posteriors under the current model |
| Train.TrainModel | hw1/dsp_hw1/c_cpp/train.c:136-183 | the model's buffers hold `Reestimate` of the batch posteriors. Only initial, transition and observation are written, and the dimensions do not change |
| Train.UpdateInitial | hw1/dsp_hw1/c_cpp/train.c:143-150 | initial[i] becomes the arithmetic mean over the batch of δₙ[0][i], not weighted by length |
| Train.UpdateTransition | hw1/dsp_hw1/c_cpp/train.c:153-165 | a[i][j] becomes Σₙ Σ_{t<Tₙ-1} εₙ[t][i][j] / Σₙ Σ_{t<Tₙ-1} δₙ[t][i]; the other arrays are unchanged |
| Train.UpdateObservation | hw1/dsp_hw1/c_cpp/train.c:168-182 | b[k][j] becomes Σ_{seq[t]=k} δ[t][j] / Σ_t δ[t][j] summed over the batch; the other arrays are unchanged |
| Train.TrainIteration | hw1/dsp_hw1/c_cpp/train.c:211-221 | one iteration runs the E-step over the whole batch under the OLD model, then train_model. The model becomes `Update` of the old one |
| Train.TrainLoop | hw1/dsp_hw1/c_cpp/train.c:211-221 | after `iter` iterations (none when iter ≤ 0) the model is the iterate `Iterate(p, …, iter)` |
| Train.UpdateStochastic | hw1/dsp_hw1/c_cpp/train.c:136-183 | when every P(O \| λ) and every denominator is nonzero, one iteration yields a model whose initial vector, transition rows and emission columns each sum to 1 |
| Train.UpdateNonNegative | hw1/dsp_hw1/c_cpp/train.c:136-183 | one iteration keeps a non-negative model non-negative |
| Train.IterateStochastic | hw1/dsp_hw1/c_cpp/train.c:211-221 | after k ≥ 1 feasible iterations the model is stochastic, whatever model training started from |
| Train.IterateNonNegative | hw1/dsp_hw1/c_cpp/train.c:211-221 | every iterate of a non-negative model is non-negative |
| Train.FixedPointStays | hw1/dsp_hw1/c_cpp/train.c:211-221 | a model that one iteration reproduces is reproduced by any number of iterations |
| Train.ProductSumIsProb | hw1/dsp_hw1/c_cpp/train.c:90-95 | on α and β, every row sum calc_delta divides by equals P(O \| λ) |
| Train.PosteriorIsGamma | hw1/dsp_hw1/c_cpp/train.c:90-100 | calc_delta on the forward and backward variables computes the state posterior γ |
| Train.PairSumIsProb | hw1/dsp_hw1/c_cpp/train.c:113-125 | every slice sum baum_welch_algo divides by equals P(O \| λ) |
| Train.PairPosteriorIsXi | hw1/dsp_hw1/c_cpp/train.c:113-132 | baum_welch_algo on the forward and backward variables computes the pair posterior ξ |
| Train.CountedFromPosteriors | hw1/dsp_hw1/c_cpp/train.c:136-183 | the δ tables, ε tables and symbols that train_model reads are exactly the batch counts `CountsOf` |
| Recurrences.ForwardBackwardAgree | hw1/dsp_hw1/c_cpp/train.c:18-72 | Σᵢ α[t][i]·β[t][i] is the same for every t < T, namely Σᵢ α[T-1][i] |
| Recurrences.ForwardBackwardStep | hw1/dsp_hw1/c_cpp/train.c:23-70 | Σᵢ α[t][i]·β[t][i] = Σᵢ α[t+1][i]·β[t+1][i] for t + 1 < T |
| Recurrences.ForwardEqualsBackward | hw1/dsp_hw1/c_cpp/train.c:18-72 | the forward termination Σᵢ α[T-1][i] equals the backward derivation Σᵢ π[i]·b[o₀][i]·β[0][i] |
| Recurrences.GammaRowSumsToOne | hw1/dsp_hw1/c_cpp/train.c:90-101 | when P(O \| λ) ≠ 0, every δ row sums to 1 |
| Recurrences.GammaIsDistribution | hw1/dsp_hw1/c_cpp/train.c:90-101 | with non-negative parameters and P(O \| λ) ≠ 0, every δ row is non-negative and sums to 1 |
| Recurrences.XiSliceSumsToOne | hw1/dsp_hw1/c_cpp/train.c:113-133 | when P(O \| λ) ≠ 0, every ε slice t < T-1 sums to 1 over all (i, j) |
| Recurrences.XiMarginal | hw1/dsp_hw1/c_cpp/train.c:113-133 | Σⱼ ε[t][i][j] = δ[t][i] for t < T-1, which is what makes the new transition rows sum to 1 |
| Recurrences.AlphaNonNegative | hw1/dsp_hw1/c_cpp/train.c:18-33 | with non-negative parameters every α entry is non-negative |
| Recurrences.BetaNonNegative | hw1/dsp_hw1/c_cpp/train.c:57-72 | with non-negative parameters every β entry is non-negative |
| Recurrences.GammaNonNegative | hw1/dsp_hw1/c_cpp/train.c:90-101 | with non-negative parameters every δ entry is non-negative |
| Recurrences.XiNonNegative | hw1/dsp_hw1/c_cpp/train.c:113-133 | with non-negative parameters every ε entry is non-negative |
| Recurrences.PairRowSum | hw1/dsp_hw1/c_cpp/train.c:113-125 | row i of slice t of the pair terms sums to α[t][i]·β[t][i] (via the backward recurrence) |
| Recurrences.PairColumnSum | hw1/dsp_hw1/c_cpp/train.c:113-125 | column j of slice t of the pair terms sums to α[t+1][j]·β[t+1][j] (via the forward recurrence) |
| Reestimation.Reestimate | hw1/dsp_hw1/c_cpp/train.c:136-183 | the re-estimated model keeps the dimensions N × M; the initial entries are the batch means of δ[0], and the rows are the ratios of expected counts |
| Reestimation.InitialSumsToOne | hw1/dsp_hw1/c_cpp/train.c:143-150 | with train_num > 0 and every δₙ[0] summing to 1, the new initial vector sums to 1 |
| Reestimation.TransitionSumsToOne | hw1/dsp_hw1/c_cpp/train.c:153-165 | if Σⱼ εₙ[t][i][j] = δₙ[t][i] and the denominator is nonzero, the new row i sums to 1 |
| Reestimation.EmissionSumsToOne | hw1/dsp_hw1/c_cpp/train.c:168-182 | if every symbol is < observ_num and the denominator is nonzero, the new column j sums to 1 over k |
| Reestimation.ReestimateStochastic | hw1/dsp_hw1/c_cpp/train.c:136-183 | posteriors obeying the marginal laws, with nonzero denominators, give a stochastic model |
| Reestimation.ReestimateNonNegative | hw1/dsp_hw1/c_cpp/train.c:136-183 | non-negative posteriors give non-negative parameters |
| Test.ViterbiAlgo | hw1/hw1_r06922095/test.c:12-62 | sets the dimensions of δ and ψ. Leaves δ = `Delta`, ψ[t][j] = `Psi` for t ≥ 1, returns p = `ViterbiProb`, and returns the backtracked path q = `PathSeq` |
| Test.ViterbiInit | hw1/hw1_r06922095/test.c:21-24 | δ[0][i] = π[i]·b[o₀][i] |
| Test.ViterbiRecursion | hw1/hw1_r06922095/test.c:26-42 | rows 1..T-1 of δ and ψ hold the max-product recurrence and its back-pointers, with arg_max carried from each entry to the next |
| Test.ViterbiTermination | hw1/hw1_r06922095/test.c:44-54 | p is the running maximum of the last δ row starting at 0, and q[T-1] is the index it records |
| Test.ViterbiBacktrack | hw1/hw1_r06922095/test.c:56-59 | when the pointers are states, the loop q[t] = ψ[t+1][q[t+1]] rebuilds the model's path |
| Test.ForwardAlgo | hw1/hw1_r06922095/test.c:70-101 | fills α with the same recurrence as in train.c and returns Σᵢ α[T-1][i] = `ForwardProb` |
| Test.Classify | hw1/hw1_r06922095/test.c:129-142 | pred[0..n) and likelihood[0..n) hold, for each test sequence, the label and the largest of the five forward scores. Entries from n on are unchanged |
| Test.ClassifyOne | hw1/hw1_r06922095/test.c:130-139 | for one test, max is the running maximum of the five forward scores starting at 0, and arg_max is the index it records |
| Test.PredChoice | hw1/hw1_r06922095/test.c:129-142 | likelihood[i] is non-negative and ≥ every score. When it is > 0, pred[i] is the LOWEST model attaining it. When it is 0, pred[i] keeps the previous test's label |
| Test.ZeroLikelihood | hw1/hw1_r06922095/test.c:129-142 | with non-negative models, a zero likelihood means that all five scores are 0 |
| Test.PathFollowsPointers | hw1/hw1_r06922095/test.c:57-59 | every state of the model's path is in [0, N), and q[t] is ψ[t+1][q[t+1]] read back as an integer |
| Viterbi.PsiLowest | hw1/hw1_r06922095/test.c:29-40 | ψ[t+1][j] is the lowest index attaining a positive maximum. If every candidate is 0, ψ keeps the stale arg_max |
| Viterbi.LastLowest | hw1/hw1_r06922095/test.c:45-54 | p ≥ every δ[T-1][i], and p ≥ 0. When p > 0, q[T-1] is the lowest index attaining it. When p = 0, q[T-1] keeps its initial value |
| Viterbi.PsiInRange | hw1/hw1_r06922095/test.c:29-40 | when arg_max starts as a state, every back-pointer is in [0, N) |
| Viterbi.PathInRange | hw1/hw1_r06922095/test.c:45-59 | when arg_max and q[T-1] start as states, every q[t] is in [0, N) |
| Viterbi.ViterbiOptimal | hw1/hw1_r06922095/test.c:12-62 | with non-negative parameters, no state path has a joint probability above p. When p > 0, the backtracked path has exactly probability p |
| Viterbi.DeltaLeAlpha | hw1/hw1_r06922095/test.c:22-39 | with non-negative parameters, Viterbi δ[t][j] ≤ forward α[t][j] for all t and j |
| Viterbi.ViterbiLeForward | hw1/hw1_r06922095/test.c:45-54 | with non-negative parameters, 0 ≤ Viterbi p ≤ forward P(O \| λ) |
| MyHead.GetData | hw1/hw1_r06922095/myhead.h:36-83 | returns the number of kept tokens; slot r holds the r-th kept token parsed, and slots from the count on are unchanged |
| MyHead.ParseToken | hw1/hw1_r06922095/myhead.h:47-79 | seq_num becomes the length of the token's A–F prefix. seq[j] is that character's symbol for j < seq_num, and the rest of the buffer is untouched |
| MyHead.SymbolOfSpec | hw1/hw1_r06922095/myhead.h:48-71 | 'A'..'F' map to 0..5 in order, and every other character maps to -1 |
| MyHead.PrefixLenIsLongest | hw1/hw1_r06922095/myhead.h:67-76 | seq_num is the longest A–F prefix: every character before it is a letter, and the character at it is not. A token that starts with another character gives seq_num 0 |
| MyHead.ParsedSymbolsInRange | hw1/hw1_r06922095/myhead.h:78 | every stored symbol is in [0, 6), and seq_num fits the buffer |
| MyHead.KeptAll | hw1/hw1_r06922095/myhead.h:42-45 | when no token is empty or starts with `'\0'` or `'\n'`, every token gives exactly one observation, in input order |
| MyHead.KeptMonotone | hw1/hw1_r06922095/myhead.h:42-82 | reading more tokens never gives fewer observations |
| Sums.ArgMax0Spec | hw1/hw1_r06922095/test.c:31-37 | when the running maximum is > 0, the strict-`>` scan records the lowest index attaining it. When the maximum is 0, the index keeps its initial value |
| Sums.Max0Bounds | hw1/hw1_r06922095/test.c:29-37 | the running maximum starting at 0 is non-negative and bounds every candidate |
| Sums.SumSwap | hw1/dsp_hw1/c_cpp/train.c:115-125 | a double sum over a rectangle can be taken in either order |
| Scenarios.ForwardExample | hw1/hw1_r06922095/test.c:70-101 | for π = [0.6, 0.4], a = [[0.7, 0.3], [0.4, 0.6]], b = [[0.5, 0.1], [0.5, 0.9]] and O = [0, 1, 0]: α[0] = [0.3, 0.04], α[1] = [0.113, 0.1026], α[2] = [0.06007, 0.009546], so P(O \| λ) = 0.069616 |
| Scenarios.ViterbiFirstStep | hw1/hw1_r06922095/test.c:22-39 | on the same model and sequence, δ[0] = [0.3, 0.04] and δ[1] = [0.105, 0.081] |
| Scenarios.ViterbiSecondStep | hw1/hw1_r06922095/test.c:29-47 | δ[2] = [0.03675, 0.00486], and the returned score is 0.03675 |
| Scenarios.ViterbiExample | hw1/hw1_r06922095/test.c:12-62 | the backtracked path is [0, 0, 0] whatever `arg_max` and `q.seq[T-1]` held before, and its joint probability is the score 0.03675 |
| Scenarios.SingleSequenceUpdate | hw1/dsp_hw1/c_cpp/train.c:143-182 | on a batch of one sequence, one update sets π'[i] = γ[0][i], a'[i][j] = Σ_{t<T-1} ξ[t][i][j] / Σ_{t<T-1} γ[t][i] and b'[k][j] = Σ_{o_t=k} γ[t][j] / Σ_t γ[t][j] |
| Scenarios.OneStateForward | hw1/hw1_r06922095/test.c:70-101 | under a 1-state model that emits symbol 0 with probability x, P([0, 1] \| λ) = x·(1 − x) |
| Scenarios.OneStateBackward | hw1/dsp_hw1/c_cpp/train.c:50-75 | under the same model, β[1] = 1, β[0] = 1 − x, and α·β and the pair term all equal x·(1 − x) |
| Scenarios.OneStatePosteriors | hw1/dsp_hw1/c_cpp/train.c:83-134 | with 0 < x < 1, every state and pair posterior of [0, 1] is 1 |
| Scenarios.OneStateUpdate | hw1/dsp_hw1/c_cpp/train.c:136-183 | one iteration on [0, 1] turns every 1-state model with 0 < x < 1 into the model with x = 1/2 |
| Scenarios.OneStateFixedPoint | hw1/dsp_hw1/c_cpp/train.c:211-221 | x = 1/2 is a fixed point: any number of iterations leaves it unchanged, and every other 0 < x < 1 reaches it after one iteration |
| Scenarios.ClassifyExample | hw1/hw1_r06922095/test.c:129-142 | three 1-state models with x = 0.8, 0.5, 0.2 score [0, 1] as 0.16, 0.25, 0.16. The label is model 1, and the likelihood is 0.25 |

## Left out

- Argument checking, model loading and dumping (`loadHMM`, `dumpHMM`,
  `load_models`, `dump_models`, `open_or_die`) and printing the result
  file: this is I/O, and hmm.h is not part of this model. The five loaded
  models are inputs to `Test.Classify`, and the training file's tokens are
  inputs to `MyHead.GetData`.
- `fopen`/`fscanf`/`fclose` in `get_data`: the file is given as its
  sequence of tokens.
- IEEE `double` behaviour: rounding, underflow on long sequences, and the
  NaN or infinity that comes from dividing by a zero sum. Arithmetic is
  exact, and every division the code performs (train.c:99, 130, 148, 163,
  180) requires a nonzero divisor (`Train.CalcDelta`,
  `Train.BaumWelchAlgo`, `Train.TrainModel`, `Train.Trainable`).
- The termination sum of train.c's `forward_algo` (train.c:36-39) is
  computed and discarded, so it has no effect and is not modelled.
- `Train.ForwardAlgo`, `Train.BackwardAlgo`, `Test.ViterbiAlgo`,
  `Test.ForwardAlgo`, `Test.Classify`: a sequence with `seq_num` = 0 makes
  the C code index row -1, which is undefined behaviour. A test token
  with no leading A–F letter, such as "XYZ", gives such a sequence. These
  methods require at least one symbol.
- `Test.ViterbiAlgo`: the C code never initialises `arg_max` or
  `q.seq[T-1]`. The model takes their initial values as parameters and
  requires them to be states. It does not model reading an
  out-of-range pointer during backtracking.
- `MyHead.GetData`: `MAX_LINE`, `MAX_SEQ`, `MAX_TRAIN_LINE` and
  `MAX_TEST_LINE` are not constants of the model. The code checks no
  capacity, so the method requires enough observation slots and buffer
  room instead. Each token is a `string`.
- The buffer bounds `MAX_SEQ` and `MAX_STATE` become requirements that each
  table has room for `seq_num` × `state_num` entries (`Train.Room`,
  `Train.Room3`).
- The `model_name` field is only read when the result file is printed, so
  `hmms[pred[i]].model_name` is not modelled. `Test.Classify` stores the
  model index.
- The lattice Viterbi of hw3/dsp_hw3_r06922095/mydisambig.cpp: every score
  comes from a language-model library whose code is not part of this model.
- hw3/dsp_hw3_r06922095/mapping.py: a file-to-file conversion whose output
  order depends on the iteration order of a Python set.
- hw1/dsp_hw1/c_cpp/calc_acc.c: line-by-line comparison of label files plus
  a floating-point print; it is I/O only.
- EM convergence (likelihood does not decrease) is not stated. The code
  runs a fixed number of iterations and has no stopping test.
- Scenarios.ClassifyExample: `main` always compares the five loaded
  models. The example applies the label and likelihood functions, which
  take any number of models, to three models, and it does not run the
  `Test.Classify` method on them.
- Scenarios.OneStateUpdate: the training iteration is worked out as numbers
  only for a 1-state model. For the 2-state example it is stated in
  closed form (`Scenarios.SingleSequenceUpdate`), not as numbers.
