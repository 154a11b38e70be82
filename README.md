# Quantum image-encoding benchmark: the sequential core of `framework.py`

`framework.py` benchmarks three quantum image encodings: qubit lattice, phase
and FRQI. For each image size it prepares a grey-value input vector and maps
it to rotation angles. It then encodes, transpiles, simulates and decodes a
circuit, and scores how well the decoded vector matches the inverted original.
Every stage's runtime, depth, width and gate count goes into an experiment
dictionary. This project models the logic underneath the quantum calls, in
four modules:

- `InputGeneration` models `prepareInput`:
  - the integer side `int(math.sqrt(n))`;
  - the evenly spaced vector `np.linspace(0, 255, n, dtype=int)`;
  - the "reversing" (serpentine) reordering, built by a loop that extends the
    vector row by row;
  - the linear interpolation into the angle range;
  - the errors raised for a negative size and for the "random" distribution.
- `Accuracy` models the accuracy score:
  - one term per pixel, compared against the inverted value 255 - x;
  - the mean of the terms, in exact arithmetic;
  - the errors that can be raised: the comprehension's IndexError for a
    vector shorter than n, and `statistics.fmean`'s error for an empty list;
  - minus infinity for a division by zero. The grey values are numpy
    integers, so a zero denominator gives inf instead of raising; the term is
    then minus infinity, and so is the mean.
- `ExperimentSizes` models the default sweeps: `power_inputs`, `square_inputs`
  and the sorted, duplicate-free shot budgets.
- `ExperimentRecords` models the experiment dictionary as a class
  `ExperimentRecord` whose lists are appended to in place:
  - one trial of `qubitLatticeExperiment`, `phaseExperiment` or
    `frqiExperiment` (`RunTrial`), pure or noisy;
  - the decode mode of `frqiExperimentIBMQ`, which fetches job results only
    when none are stored, then decodes every stored result.

  Each method is proved against a function on the dictionary's contents
  (`Metrics`). Lemmas about those functions state, key by key, what a trial or
  a decode call appends.

Times, circuit depths and widths, gate counts, decoded vectors, job results
and the decoder itself are parameters of the model.

In `RunTrial` a null record stands for a falsy `exp_dict` (`None` or an empty
dictionary): nothing is recorded.

The outcome of a trial is one of:
- its accuracy;
- the error that ended it:
  - the input could not be prepared;
  - `run_simulation` was false, so `accuracy` is unbound when the function
    returns;
  - the score raised (IndexError or the empty-mean error).

`Outcomes` (the `Result` and `Option` types) is imported by `InputGeneration`,
`Accuracy` and `ExperimentRecords`. `InputGeneration` is imported by all three
other modules.

A distribution name other than "random" or "reversing" (compared after
lower-casing) yields the linear vector, as the code's final `else` does; it is
not an error. The depth recorded for
the Simulate stage is that of the measured, untranspiled circuit.

## Model

| member | source | states |
|---|---|---|
| InputGeneration.ISqrt | framework.py:106 | the side is the integer square root: side² <= n < (side+1)² |
| InputGeneration.ISqrtUnique | framework.py:106 | any k with k² <= n < (k+1)² is the side |
| InputGeneration.ISqrtSquareIff | framework.py:106 | side² == n exactly when n is a perfect square |
| InputGeneration.LinspaceAt | framework.py:112 | entry i of the linear vector lies in 0..255, is 0 at i = 0, and is 255 at the last index when n >= 2 |
| InputGeneration.Linspace | framework.py:112 | the linear vector has n values, each within 0..255 |
| InputGeneration.LinspaceAtMonotone | framework.py:112 | a later entry of the linear vector is never smaller than an earlier one |
| InputGeneration.LinspaceShape | framework.py:117 | the linear vector has n values, starts at 0, ends at 255 when n >= 2, is non-decreasing and stays within 0..255 |
| InputGeneration.Interp | framework.py:119 | the lower end of the input range maps to the first angle, the upper end to the second, and every angle lies within the angle range |
| InputGeneration.Angles | framework.py:119 | one angle per value, in order; values at or below the input range's low end get the low angle, values at or above its high end the high angle; when the angle range ascends, every angle lies in it and a larger value never gets a smaller angle, whatever the vector's order (so also for the reversing vector) |
| InputGeneration.InterpMonotone | framework.py:119 | interpolation is monotone non-decreasing |
| InputGeneration.LinearAngles | framework.py:117-119 | the angles of the linear vector: n of them, the first the lower bound, the last the upper bound, non-decreasing, inside the range |
| InputGeneration.DownSlice | framework.py:115 | the downward slice `v[start:stop:-1]` has start - stop values, the k-th being v[start - k] |
| InputGeneration.DownSliceIsReverse | framework.py:115 | the downward slice is the reverse of the forward slice v[stop+1 .. start] |
| InputGeneration.ReversePermutation | framework.py:115 | reversing a row keeps its values (same multiset) |
| InputGeneration.RowPermutation | framework.py:115 | each row of the layout holds the same values as the linear slice it comes from |
| InputGeneration.RowSlice | framework.py:115 | the slice one pass appends (forward for even i, the downward slice for odd i) lies inside the linear vector and is row i of the serpentine layout |
| InputGeneration.Serpentine | framework.py:114-115 | after `rows` rows the vector holds rows × side values |
| InputGeneration.SerpentineRowAt | framework.py:114-115 | row i of the output is linear row i, forward for even i and reversed for odd i |
| InputGeneration.SerpentinePermutation | framework.py:114-115 | the output is a permutation of the first rows × side linear values |
| InputGeneration.ReversingOrder | framework.py:111-115 | the extend loop builds exactly the serpentine order of side rows |
| InputGeneration.Lower | framework.py:107 | lower-casing keeps the length, leaves no ASCII capital, turns each capital into its lower-case letter and leaves every other character unchanged |
| InputGeneration.DistributionNames | framework.py:107-117 | the distribution is chosen case-insensitively: a lower-cased name selects the same one; "Random" is random, "REVERSING" is reversing, and "linear" is linear; any other name is linear through the definition's final `else` |
| InputGeneration.InputVector | framework.py:106-117 | the linear vector has n values; the reversing vector has side² values, at most n |
| InputGeneration.ReversingShape | framework.py:106-115 | the reversing vector has side² values, all n exactly when n is a perfect square; it permutes the first side² linear values; its rows are the linear rows, odd ones reversed |
| InputGeneration.InputVectorInRange | framework.py:110-117 | a deterministic input vector has at most n values (exactly n for linear or a perfect square), all grey values in 0..255 |
| InputGeneration.Reversing16 | framework.py:111-115 | for n = 16 the reversing vector is rows 0 and 2 forward, rows 1 and 3 reversed, of 0, 17, ..., 255 |
| InputGeneration.PrepareInput | framework.py:105-123 | a negative size raises the sqrt domain error; "random" is rejected; otherwise the vector of the distribution and its interpolated angles |
| Accuracy.Term | framework.py:323 | a term is minus infinity (numpy's x / 0 == inf) exactly when the values differ and the larger is 0: expected 0 with a negative output, or output 0 with a negative expected value |
| Accuracy.TermExact | framework.py:323 | a term is 1 exactly when the output equals 255 - input |
| Accuracy.TermInUnitRange | framework.py:323 | for a grey value and a non-negative output the term is finite, lies in [0, 1] and is 0 exactly when the values differ and one of them is 0 |
| Accuracy.Terms | framework.py:323 | the comprehension exists exactly when both vectors hold at least n values, and then has n entries; otherwise it raises IndexError |
| Accuracy.TermsSpec | framework.py:323 | each entry of the comprehension is that pixel's term |
| Accuracy.SumBounds | framework.py:323 | values in [0, 1] sum to at most their count, and to exactly it when all are 1 |
| Accuracy.Score | framework.py:323 | n <= 0 raises the empty-mean error; otherwise the score exists exactly when both vectors hold n values, a failure is IndexError, and the score is minus infinity exactly when some pixel's term is |
| Accuracy.ScoreInUnitRange | framework.py:323 | for well-formed vectors the score exists, is finite, lies in [0, 1], and is 1 exactly when every pixel was reconstructed as its inverted original |
| Accuracy.ScoreExamples | framework.py:323 | input 10 with output 245 scores 1; with output 0 it scores 0 |
| Accuracy.MinusInfinityScore | framework.py:323 | input [0, 255] decoded as [245, -1] scores minus infinity instead of raising |
| Accuracy.ReversingNonSquareHasNoScore | framework.py:323 | a reversing input of non-square size runs off its end, so the score raises IndexError whatever was decoded |
| ExperimentSizes.PowerInputs | framework.py:739 | power_inputs(k) has k entries, none for negative k |
| ExperimentSizes.SquareInputs | framework.py:740 | square_inputs(k) has k - 1 entries, none for k < 2 |
| ExperimentSizes.PowerInputsShape | framework.py:739 | power_inputs(k) holds k perfect squares 4, 16, ..., 4^k, each four times the previous, strictly increasing |
| ExperimentSizes.SquareInputsShape | framework.py:740 | square_inputs(k) holds k - 1 perfect squares from 4 to k², strictly increasing |
| ExperimentSizes.DefaultSizes | framework.py:769-770 | the sweeps used are [4, 9, 16, 25] and [4, 16, 64, 256] |
| ExperimentSizes.Insert | framework.py:935 | inserting into a strictly increasing list keeps it strictly increasing, adds exactly the new value, and grows by one unless the value is present |
| ExperimentSizes.SortedSet | framework.py:935 | `sorted(set(xs))` is strictly increasing and holds exactly the values of xs |
| ExperimentSizes.IncreasingUnique | framework.py:935 | two strictly increasing lists with the same values are equal |
| ExperimentSizes.ShotSweep | framework.py:935 | the shot sweep is strictly increasing and holds the chosen budget and every default budget |
| ExperimentSizes.ShotSweepShape | framework.py:935 | the shot sweep is strictly increasing, holds every default budget and the chosen one and nothing else, equals the defaults when the chosen budget is among them, and is one longer otherwise |
| ExperimentSizes.DefaultShotSweep | framework.py:743 | with the default 50000 shots the sweep is the six default budgets |
| ExperimentRecords.ExperimentRecord.RecordEncoderSection | framework.py:230-235 | the encoder section appends the Encoder runtime of the trial's mode, and in a pure trial the encoder depth and the width |
| ExperimentRecords.ExperimentRecord.RecordTranspileSection | framework.py:260-265 | the transpile section appends the Transpile runtime, and in a pure trial the transpiled depth and the gate counts |
| ExperimentRecords.ExperimentRecord.RecordSimulateSection | framework.py:283-287 | the simulate section appends the Simulate runtime, and in a pure trial the Simulate depth |
| ExperimentRecords.ExperimentRecord.RecordCircuitSections | framework.py:230-265 | encoding, the pure-only Invert + Measurement depth, and transpilation, in order |
| ExperimentRecords.ExperimentRecord.RecordRunSections | framework.py:283-318 | simulation, the Decoder runtime and the data point of the trial's mode |
| ExperimentRecords.RunTrial | framework.py:201-335 | a trial returns its accuracy or the error that stopped it; a non-null record ends as RecordTrial of the old one, each section stored only if reached; phaseExperiment (:339-467) and frqiExperiment (:471-600) record the same way, FRQI storing the elapsed encoder time |
| ExperimentRecords.TrialOutcome | framework.py:201-335 | no input is prepared exactly when n is negative or the distribution is random; an accuracy needs n > 0 and run_simulation; a simulated linear trial with n > 0 scores exactly when the decoder returned at least n values |
| ExperimentRecords.MinusInfinityTrial | framework.py:323 | a simulated two-pixel linear trial decoded as [245, -1] ends with the accuracy minus infinity, not with an error |
| ExperimentRecords.RecordTrial | framework.py:230-328 | a trial's record keeps the set of runtime keys and the set of depth keys |
| ExperimentRecords.RecordTrialPerKey | framework.py:230-328 | key by key, a trial appends one value to each list of its own mode for every stage it reached: runtimes, pure-only depths, widths and gate counts, data points and accuracy; sizes, jobs and results are untouched |
| ExperimentRecords.NoisyTrialLeavesPureLists | framework.py:230-328 | a noisy trial leaves every plain runtime, depth, width, gate-count, data-point and accuracy list unchanged; a complete one adds one entry to each Noisy runtime and to the noisy data points and accuracies |
| ExperimentRecords.PureTrialAppendsOnce | framework.py:230-328 | a complete pure trial adds exactly one entry to every plain runtime list, every depth list, the widths, the gate counts, the data points and the accuracies, and leaves the Noisy lists alone |
| ExperimentRecords.SimulatedTrialScores | framework.py:323 | a simulated trial on a linear input, or a reversing input of square size, with enough non-negative decoded values always scores, finitely and within [0, 1] |
| ExperimentRecords.ExperimentRecord.FetchResults | framework.py:692-699 | results are fetched only when none are stored: one per job in order, stopping at the first that cannot be retrieved |
| ExperimentRecords.ExperimentRecord.FetchAll | framework.py:694-697 | the fetch loop changes nothing but the results, which end as exactly the fetched results: one per job in order, up to the first job that cannot be retrieved |
| ExperimentRecords.Fetched | framework.py:694-697 | at most one result is fetched per job |
| ExperimentRecords.FetchedPrefix | framework.py:694-697 | the fetched results are those of the first jobs in order, and the next job, if any, could not be retrieved |
| ExperimentRecords.FetchedUnique | framework.py:694-697 | that prefix property determines the fetched list |
| ExperimentRecords.FetchStepRepeat | framework.py:692-693 | results are fetched at most once: after a fetch step stored results, a later one keeps them whatever it would fetch; one that stored none left the record unchanged, so the next starts afresh |
| ExperimentRecords.ExperimentRecord.DecodeResult | framework.py:703-732 | one decode pass: the size lookup and input preparation may raise; otherwise the Simulate time, Decoder time and data point are appended and then the accuracy or its error |
| ExperimentRecords.DecodeOne | framework.py:703-732 | a decode pass keeps the runtime keys, sizes, jobs and stored results |
| ExperimentRecords.DecodeAll | framework.py:703-732 | decoding the stored results keeps the Simulate and Decoder lists present, the set of runtime keys, the sizes, the jobs and the results |
| ExperimentRecords.DecodeCall | framework.py:692-732 | after a decode call the stored results are the fetched ones when none were stored before, and the old ones otherwise; sizes, jobs and runtime keys are kept |
| ExperimentRecords.ExperimentRecord.Decode | framework.py:690-734 | the decode mode ends as the fetch step followed by every stored result decoded in order until one raises |
| ExperimentRecords.DecodeAllAppends | framework.py:703-732 | decoding without error appends the reported times to Simulate, and one Decoder runtime, one data point and one accuracy per result; nothing else changes |
| ExperimentRecords.DecodeCallAppends | framework.py:692-732 | a successful call stores the fetched results (or keeps the stored ones) and appends one entry per stored result |
| ExperimentRecords.RepeatedDecode | framework.py:692-732 | once results are stored a second call does not fetch again, whatever the service would return; when both calls succeed every result has been counted twice |

## Left out

- Accuracy.Term: the `round(..., 4)` of each term and all floating-point error; terms and means are exact reals, with minus infinity as the one non-finite value.
- Accuracy.Term: the grey values are taken to be numpy integers, as `np.linspace` returns them, so a zero denominator follows numpy (inf and a RuntimeWarning, which is not modelled) rather than Python's ZeroDivisionError. Signed zero is not modelled: a decoded -0.0 against a negative expected value would make numpy's term +inf, where the model gives minus infinity. Grey values never exceed 255, so the expected value is never negative for prepared inputs.
- InputGeneration.ISqrt: the side is the exact integer square root; `int(math.sqrt(n))` goes through a double and agrees with it only while n is below 2^52. The sizes from `power_inputs` and `square_inputs` are perfect squares well inside that bound.
- InputGeneration.Angles: angles are exact reals; `np.interp` computes them in double precision.
- InputGeneration.LinspaceAt: the linear vector is the exact floor(255·i/(n-1)); numpy's floating-point computation can be one lower at some indices.
- InputGeneration.ParseDistribution: lower-casing covers ASCII letters only, not Python's full Unicode `str.lower`.
- The "random" distribution: `np.random.uniform` is given a `dtype` argument it does not accept. It is modelled only as the error it raises, and no random values are drawn.
- Interpolation is modelled for the two-point ranges the code passes. The angle range's upper end is π as the double 3.141592653589793, over 2 for FRQI.
- Circuit construction, inversion and measurement, state vectors, transpilation, simulation, the IBM runtime service, fidelities and supermarq metrics have no visible semantics here. Their results (depths, widths, gate counts, times, counts) are parameters.
- The encoder and decoder bodies are in `qubit_lattice`, `phase` and `frqi`, which are not part of this model. The decoded vector is a parameter, and the decode mode's decoder is a function parameter.
- `time.process_time` readings are parameters, including the absolute clock value stored as the pure Encoder runtime of qubit lattice and phase.
- Logging, pickle and qpy files, plots and `print` are I/O. They are left out.
- Command-line parsing (framework.py:753-763) is left out. A `shots` given on the command line arrives as a string, so the shot sweep would mix text and integers; `ShotSweep` takes an integer.
- The main program's loops over sizes and experiments, with their try/except, are left out. So are the `shots` and `size` lists they append to.
- The submit mode of `frqiExperimentIBMQ` (framework.py:622-688) and its state-vector list are left out.
- ExperimentRecords.RunTrial: the dictionary's keys come from `btq_plotter.get_dict`, which is not part of this model. The model requires the keys a trial writes to be present instead of modelling a KeyError. ExperimentRecords.ExperimentRecord.Decode requires the same of the Simulate and Decoder keys.
- ExperimentRecords.RunTrial: the encoder, `transpile`, the simulator and the decoder are taken to return. One that raises ends the experiment after the earlier sections were stored, leaving lists of unequal length (an Encoder runtime without its Transpile runtime, say). The outcomes of the model stop only at input preparation, at `run_simulation` and at the score, so such a partial record is not represented.
- ExperimentRecords.ExperimentRecord.Decode: `result.get_counts()` and `frqiDecoder` are taken to return. One that raises partway would leave that result's Simulate runtime appended without its Decoder runtime, which the model does not represent.
- ExperimentRecords.DecodeAllAppends: for the Decoder runtimes, data points and accuracies it states how many entries are appended, not their values; so do ExperimentRecords.DecodeCallAppends and the second ensures of ExperimentRecords.RepeatedDecode, which rest on the same predicate. The values are fixed by `DecodeOne`.
- Errors inside the fetch loop are all caught, as in the code. Which jobs fail is a parameter (`fetch` returns no result), and the exception's text is not modelled.
