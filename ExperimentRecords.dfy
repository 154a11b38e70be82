/**
 * The experiment dictionary the qubit-lattice, phase and FRQI experiments
 * append their metrics to, and the decode mode of the IBMQ experiment, which
 * fetches job results once and then decodes every stored result.
 *
 * Everything the quantum stack produces (times, circuit depths and widths,
 * gate counts, decoded vectors, job results) arrives as a parameter.
 */
module ExperimentRecords {
  import opened Outcomes
  import opened InputGeneration
  import opened Accuracy

  /** np.pi as a double. */
  const Pi: real := 3.141592653589793

  datatype Scheme = QubitLattice | Phase | Frqi

  /** The profiled stages; each has a plain and a "Noisy" runtime list. */
  datatype Stage = Encoder | Transpile | Simulate | Decoder
  datatype RuntimeKey = RuntimeKey(stage: Stage, noisy: bool)

  /** The depth lists: "Encoder", "Invert + Measurement", "Transpile", "Simulate". */
  datatype DepthKey = EncoderDepth | InvertMeasurementDepth | TranspileDepth | SimulateDepth

  type Counts = map<string, nat>
  type JobHandle = string
  datatype JobResult = JobResult(timeTaken: real, counts: Counts)

  /** One `[list(input_vector), list(output_vector)]` entry. */
  datatype DataPoint = DataPoint(original: seq<int>, reconstructed: seq<real>)

  /** The contents of an experiment dictionary. */
  datatype Metrics = Metrics(
    runtimes: map<RuntimeKey, seq<real>>,
    depths: map<DepthKey, seq<nat>>,
    widths: seq<nat>,
    countOps: seq<Counts>,
    dataPoints: seq<DataPoint>,
    noisyDataPoints: seq<DataPoint>,
    accuracy: seq<Extended>,
    noisyAccuracy: seq<Extended>,
    size: seq<int>,
    jobs: seq<JobHandle>,
    results: seq<JobResult>)

  function AddRuntime(b: Metrics, k: RuntimeKey, v: real): (a: Metrics)
    requires k in b.runtimes
    ensures a.runtimes.Keys == b.runtimes.Keys && a.depths == b.depths
  {
    b.(runtimes := b.runtimes[k := b.runtimes[k] + [v]])
  }

  function AddDepth(b: Metrics, k: DepthKey, d: nat): (a: Metrics)
    requires k in b.depths
    ensures a.depths.Keys == b.depths.Keys && a.runtimes == b.runtimes
  {
    b.(depths := b.depths[k := b.depths[k] + [d]])
  }

  function AddDataPoint(b: Metrics, noisy: bool, p: DataPoint): (a: Metrics)
    ensures a.runtimes == b.runtimes && a.depths == b.depths
  {
    if noisy then b.(noisyDataPoints := b.noisyDataPoints + [p])
    else b.(dataPoints := b.dataPoints + [p])
  }

  function AddAccuracy(b: Metrics, noisy: bool, v: Extended): (a: Metrics)
    ensures a.runtimes == b.runtimes && a.depths == b.depths
    ensures a.(accuracy := b.accuracy, noisyAccuracy := b.noisyAccuracy) == b
    ensures a.accuracy == b.accuracy + (if noisy then [] else [v])
    ensures a.noisyAccuracy == b.noisyAccuracy + (if noisy then [v] else [])
  {
    if noisy then b.(noisyAccuracy := b.noisyAccuracy + [v])
    else b.(accuracy := b.accuracy + [v])
  }

  /** The dictionary as a mutable object: every list is appended to in place. */
  class ExperimentRecord {
    var runtimes: map<RuntimeKey, seq<real>>
    var depths: map<DepthKey, seq<nat>>
    var widths: seq<nat>
    var countOps: seq<Counts>
    var dataPoints: seq<DataPoint>
    var noisyDataPoints: seq<DataPoint>
    var accuracy: seq<Extended>
    var noisyAccuracy: seq<Extended>
    var size: seq<int>
    var jobs: seq<JobHandle>
    var results: seq<JobResult>

    function Snapshot(): Metrics
      reads this
    {
      Metrics(runtimes, depths, widths, countOps, dataPoints, noisyDataPoints,
              accuracy, noisyAccuracy, size, jobs, results)
    }

    /** A fresh dictionary with the given keys, sizes and job ids and every list empty. */
    constructor(runtimeKeys: set<RuntimeKey>, depthKeys: set<DepthKey>, size: seq<int>, jobs: seq<JobHandle>)
      ensures runtimes.Keys == runtimeKeys && depths.Keys == depthKeys
      ensures forall k :: k in runtimes ==> runtimes[k] == []
      ensures forall k :: k in depths ==> depths[k] == []
      ensures widths == [] && countOps == [] && dataPoints == [] && noisyDataPoints == []
      ensures accuracy == [] && noisyAccuracy == [] && results == []
      ensures this.size == size && this.jobs == jobs
    {
      runtimes := map k | k in runtimeKeys :: [];
      depths := map k | k in depthKeys :: [];
      widths, countOps := [], [];
      dataPoints, noisyDataPoints := [], [];
      accuracy, noisyAccuracy := [], [];
      this.size, this.jobs, results := size, jobs, [];
    }

    method AppendRuntime(k: RuntimeKey, v: real)
      requires k in runtimes
      modifies this
      ensures Snapshot() == AddRuntime(old(Snapshot()), k, v)
    {
      runtimes := runtimes[k := runtimes[k] + [v]];
    }

    method AppendDepth(k: DepthKey, d: nat)
      requires k in depths
      modifies this
      ensures Snapshot() == AddDepth(old(Snapshot()), k, d)
    {
      depths := depths[k := depths[k] + [d]];
    }

    method AppendWidth(w: nat)
      modifies this
      ensures Snapshot() == old(Snapshot()).(widths := old(widths) + [w])
    {
      widths := widths + [w];
    }

    method AppendCountOps(c: Counts)
      modifies this
      ensures Snapshot() == old(Snapshot()).(countOps := old(countOps) + [c])
    {
      countOps := countOps + [c];
    }

    method AppendDataPoint(noisy: bool, p: DataPoint)
      modifies this
      ensures Snapshot() == AddDataPoint(old(Snapshot()), noisy, p)
    {
      if noisy {
        noisyDataPoints := noisyDataPoints + [p];
      } else {
        dataPoints := dataPoints + [p];
      }
    }

    method AppendAccuracy(noisy: bool, a: Extended)
      modifies this
      ensures Snapshot() == AddAccuracy(old(Snapshot()), noisy, a)
    {
      if noisy {
        noisyAccuracy := noisyAccuracy + [a];
      } else {
        accuracy := accuracy + [a];
      }
    }

    /** The encoding section of an experiment. */
    method RecordEncoderSection(scheme: Scheme, noisy: bool, m: Measurements)
      requires CanRecordTrial(Snapshot(), noisy)
      modifies this
      ensures Snapshot() == RecordEncoder(old(Snapshot()), scheme, noisy, m)
    {
      if noisy {
        AppendRuntime(RuntimeKey(Encoder, true), m.encodeElapsed);
      } else {
        AppendRuntime(RuntimeKey(Encoder, false), if scheme == Frqi then m.encodeElapsed else m.encoderClock);
        AppendDepth(EncoderDepth, m.encodedDepth);
        AppendWidth(m.width);
      }
    }

    /** The transpile section of an experiment. */
    method RecordTranspileSection(noisy: bool, m: Measurements)
      requires CanRecordTrial(Snapshot(), noisy)
      modifies this
      ensures Snapshot() == RecordTranspile(old(Snapshot()), noisy, m)
    {
      if noisy {
        AppendRuntime(RuntimeKey(Transpile, true), m.transpileElapsed);
      } else {
        AppendRuntime(RuntimeKey(Transpile, false), m.transpileElapsed);
        AppendDepth(TranspileDepth, m.transpiledDepth);
        AppendCountOps(m.countOps);
      }
    }

    /** The simulate section of an experiment. */
    method RecordSimulateSection(noisy: bool, m: Measurements)
      requires CanRecordTrial(Snapshot(), noisy)
      modifies this
      ensures Snapshot() == RecordSimulate(old(Snapshot()), noisy, m)
    {
      if noisy {
        AppendRuntime(RuntimeKey(Simulate, true), m.simulationTime);
      } else {
        AppendRuntime(RuntimeKey(Simulate, false), m.simulationTime);
        AppendDepth(SimulateDepth, m.measuredDepth);
      }
    }

    /** Encoding, inversion and measurement, and transpilation, each guarded by `if exp_dict`. */
    method RecordCircuitSections(scheme: Scheme, noisy: bool, m: Measurements)
      requires CanRecordTrial(Snapshot(), noisy)
      modifies this
      ensures Snapshot() == RecordCircuit(old(Snapshot()), scheme, noisy, m)
    {
      RecordEncoderSection(scheme, noisy, m);
      if !noisy {
        AppendDepth(InvertMeasurementDepth, m.measuredDepth);
      }
      RecordTranspileSection(noisy, m);
    }

    /** Simulation, decoding and the data point. */
    method RecordRunSections(noisy: bool, m: Measurements, vector: seq<int>)
      requires CanRecordTrial(Snapshot(), noisy)
      modifies this
      ensures Snapshot() == RecordRun(old(Snapshot()), noisy, m, vector)
    {
      RecordSimulateSection(noisy, m);
      AppendRuntime(RuntimeKey(Decoder, noisy), m.decodeElapsed);
      AppendDataPoint(noisy, DataPoint(vector, m.decoded));
    }

    /**
     * The fetch step of the decode mode: when no results are stored yet, the
     * result of every job in order, stopping at the first job whose result
     * cannot be retrieved (the exception is caught and the loop abandoned).
     */
    method FetchResults(fetch: JobHandle -> Option<JobResult>)
      modifies this
      ensures Snapshot() == FetchStep(old(Snapshot()), fetch)
    {
      if results == [] {
        FetchAll(fetch);
      }
    }

    /** The fetch loop itself, appending each retrieved result in job order. */
    method FetchAll(fetch: JobHandle -> Option<JobResult>)
      requires results == []
      modifies this
      ensures Snapshot() == old(Snapshot()).(results := Fetched(jobs, fetch))
    {
      var js := jobs;
      var i := 0;
      while i < |js|
        invariant 0 <= i <= |js| && jobs == js
        invariant Snapshot() == old(Snapshot()).(results := results)
        invariant Fetched(js, fetch) == results + Fetched(js[i..], fetch)
        decreases |js| - i
      {
        FetchedFrom(js, i, fetch);
        var r := fetch(js[i]);
        if r.None? {
          return;
        }
        results := results + [r.value];
        i := i + 1;
      }
      assert js[i..] == [];
    }

    /**
     * One pass of the decode loop for result i: its input vector, the
     * Simulate and Decoder runtimes, the data point and the accuracy, or the
     * error that ends the loop.
     */
    method DecodeResult(i: nat, res: JobResult, dist: string, decoder: (Counts, int) -> seq<real>,
                        decodeElapsed: nat -> real) returns (error: Option<DecodeError>)
      requires CanDecode(Snapshot())
      modifies this
      ensures Pass(Snapshot(), error) == DecodeOne(old(Snapshot()), i, res, dist, decoder, decodeElapsed)
    {
      if i >= |size| {
        return Some(SizeMissing);
      }
      var n := size[i];
      var prepared := PrepareInput(n, 0, Stop, 0.0, Pi / 2.0, dist);
      if prepared.Failure? {
        return Some(DecodeInputFailed(prepared.error));
      }
      var vector := prepared.value.vector;
      AppendRuntime(RuntimeKey(Simulate, false), res.timeTaken);
      var output := decoder(res.counts, n);
      AppendRuntime(RuntimeKey(Decoder, false), decodeElapsed(i));
      AppendDataPoint(false, DataPoint(vector, output));
      var score := Score(vector, output, n);
      if score.Failure? {
        return Some(DecodeAccuracyFailed(score.error));
      }
      AppendAccuracy(false, score.value);
      return None;
    }

    /**
     * `frqiExperimentIBMQ` in decode mode: fetch if nothing is stored, then
     * decode every stored result in order until one raises.
     */
    method Decode(dist: string, fetch: JobHandle -> Option<JobResult>, decoder: (Counts, int) -> seq<real>,
                  decodeElapsed: nat -> real) returns (error: Option<DecodeError>)
      requires CanDecode(Snapshot())
      modifies this
      ensures Pass(Snapshot(), error) == DecodeCall(old(Snapshot()), dist, fetch, decoder, decodeElapsed)
    {
      FetchResults(fetch);
      var rs := results;
      ghost var fetched := Snapshot();
      var i := 0;
      while i < |rs|
        invariant 0 <= i <= |rs|
        invariant CanDecode(Snapshot())
        invariant DecodeAll(Snapshot(), rs, i, dist, decoder, decodeElapsed) ==
                  DecodeAll(fetched, rs, 0, dist, decoder, decodeElapsed)
        decreases |rs| - i
      {
        error := DecodeResult(i, rs[i], dist, decoder, decodeElapsed);
        if error.Some? {
          return;
        }
        i := i + 1;
      }
      error := None;
    }
  }

  // ---------------------------------------------------------------------
  // One simulated trial (qubitLatticeExperiment, phaseExperiment, frqiExperiment)

  /** What the quantum stack and the clock report during one trial. */
  datatype Measurements = Measurements(
    encodeElapsed: real,     // process time spent preparing and encoding
    encoderClock: real,      // the absolute process time read after encoding
    encodedDepth: nat,
    width: nat,
    measuredDepth: nat,      // depth after inversion and measurements
    transpileElapsed: real,
    transpiledDepth: nat,
    countOps: Counts,
    simulationTime: real,
    decodeElapsed: real,
    decoded: seq<real>)

  /** How a trial ends instead of returning an accuracy. */
  datatype TrialError =
    | InputFailed(inputError: InputError)
    | AccuracyUnbound                          // run_simulation is false: `accuracy` is never assigned
    | AccuracyFailed(accuracyError: AccuracyError)

  /** The upper end of the angle range: pi for qubit lattice and phase, pi/2 for FRQI. */
  function AngleTop(scheme: Scheme): real {
    if scheme == Frqi then Pi / 2.0 else Pi
  }

  /** The trial's result: its accuracy, or where it stopped. */
  function TrialOutcome(n: int, dist: string, runSimulation: bool, decoded: seq<real>): (r: Result<Extended, TrialError>)
    ensures Progress(r) == 0 <==> n < 0 || ParseDistribution(dist) == Random
    ensures r.Success? ==> 0 < n && runSimulation
    ensures 0 < n && runSimulation && ParseDistribution(dist) == Linear ==> (r.Success? <==> n <= |decoded|)
  {
    if n < 0 then Failure(InputFailed(MathDomainError))
    else if ParseDistribution(dist) == Random then Failure(InputFailed(RandomRejected))
    else if !runSimulation then Failure(AccuracyUnbound)
    else
      match Score(InputVector(n, ParseDistribution(dist)), decoded, n)
      case Failure(e) => Failure(AccuracyFailed(e))
      case Success(a) => Success(a)
  }

  /**
   * A simulated two-pixel linear trial whose decoder returns a negative value
   * for the white pixel still ends with an accuracy: minus infinity.
   */
  lemma MinusInfinityTrial()
    ensures TrialOutcome(2, "linear", true, [245.0, -1.0]) == Success(MinusInfinity)
  {
    DistributionNames("linear");
    assert Linspace(2) == [0, 255];
    MinusInfinityScore();
  }

  /**
   * How far a trial gets: 0 = no input, 1 = encoded and transpiled,
   * 2 = also simulated, decoded and its data point stored, 3 = also scored.
   */
  function Progress(o: Result<Extended, TrialError>): nat {
    match o
    case Success(_) => 3
    case Failure(InputFailed(_)) => 0
    case Failure(AccuracyUnbound) => 1
    case Failure(AccuracyFailed(_)) => 2
  }

  /** The runtime a stage records; pure qubit-lattice and phase runs store the clock itself. */
  function RuntimeValue(scheme: Scheme, noisy: bool, stage: Stage, m: Measurements): real {
    match stage
    case Encoder => if !noisy && scheme != Frqi then m.encoderClock else m.encodeElapsed
    case Transpile => m.transpileElapsed
    case Simulate => m.simulationTime
    case Decoder => m.decodeElapsed
  }

  /** The depth each list records; the simulate entry is the measured, untranspiled circuit's. */
  function DepthValue(k: DepthKey, m: Measurements): nat {
    match k
    case EncoderDepth => m.encodedDepth
    case InvertMeasurementDepth => m.measuredDepth
    case TranspileDepth => m.transpiledDepth
    case SimulateDepth => m.measuredDepth
  }

  /** The progress a trial needs before a stage's runtime is recorded. */
  function StageProgress(stage: Stage): nat {
    if stage == Encoder || stage == Transpile then 1 else 2
  }

  function DepthProgress(k: DepthKey): nat {
    if k == SimulateDepth then 2 else 1
  }

  /** The lists a trial in the given mode writes to are all present. */
  ghost predicate CanRecordTrial(b: Metrics, noisy: bool) {
    RuntimeKey(Encoder, noisy) in b.runtimes && RuntimeKey(Transpile, noisy) in b.runtimes &&
    RuntimeKey(Simulate, noisy) in b.runtimes && RuntimeKey(Decoder, noisy) in b.runtimes &&
    (!noisy ==> EncoderDepth in b.depths && InvertMeasurementDepth in b.depths &&
                TranspileDepth in b.depths && SimulateDepth in b.depths)
  }

  /** The encoding section: a noisy run stores its time only; a pure run also depth and width. */
  function RecordEncoder(b: Metrics, scheme: Scheme, noisy: bool, m: Measurements): (a: Metrics)
    requires CanRecordTrial(b, noisy)
    ensures a.runtimes.Keys == b.runtimes.Keys && a.depths.Keys == b.depths.Keys
  {
    if noisy then AddRuntime(b, RuntimeKey(Encoder, true), m.encodeElapsed)
    else
      var r := AddRuntime(b, RuntimeKey(Encoder, false), RuntimeValue(scheme, false, Encoder, m));
      var d := AddDepth(r, EncoderDepth, m.encodedDepth);
      d.(widths := d.widths + [m.width])
  }

  /** The transpile section: a pure run also stores the depth and the gate counts. */
  function RecordTranspile(b: Metrics, noisy: bool, m: Measurements): (a: Metrics)
    requires CanRecordTrial(b, noisy)
    ensures a.runtimes.Keys == b.runtimes.Keys && a.depths.Keys == b.depths.Keys
  {
    if noisy then AddRuntime(b, RuntimeKey(Transpile, true), m.transpileElapsed)
    else
      var r := AddRuntime(b, RuntimeKey(Transpile, false), m.transpileElapsed);
      var d := AddDepth(r, TranspileDepth, m.transpiledDepth);
      d.(countOps := d.countOps + [m.countOps])
  }

  /** The simulate section: a pure run also stores a depth. */
  function RecordSimulate(b: Metrics, noisy: bool, m: Measurements): (a: Metrics)
    requires CanRecordTrial(b, noisy)
    ensures a.runtimes.Keys == b.runtimes.Keys && a.depths.Keys == b.depths.Keys
  {
    if noisy then AddRuntime(b, RuntimeKey(Simulate, true), m.simulationTime)
    else AddDepth(AddRuntime(b, RuntimeKey(Simulate, false), m.simulationTime), SimulateDepth, m.measuredDepth)
  }

  /** Encoding, inversion and measurement, and transpilation: what every trial with an input records. */
  function RecordCircuit(b: Metrics, scheme: Scheme, noisy: bool, m: Measurements): (a: Metrics)
    requires CanRecordTrial(b, noisy)
    ensures CanRecordTrial(a, noisy)
  {
    var enc := RecordEncoder(b, scheme, noisy, m);
    var inv := if noisy then enc else AddDepth(enc, InvertMeasurementDepth, m.measuredDepth);
    RecordTranspile(inv, noisy, m)
  }

  /** Simulation, decoding and the data point: what every simulated trial records. */
  function RecordRun(b: Metrics, noisy: bool, m: Measurements, vector: seq<int>): (a: Metrics)
    requires CanRecordTrial(b, noisy)
  {
    var sim := RecordSimulate(b, noisy, m);
    var dec := AddRuntime(sim, RuntimeKey(Decoder, noisy), m.decodeElapsed);
    AddDataPoint(dec, noisy, DataPoint(vector, m.decoded))
  }

  /** The input vector of a trial whose input could be prepared. */
  function TrialVector(n: int, dist: string): seq<int> {
    if n < 0 || ParseDistribution(dist) == Random then [] else InputVector(n, ParseDistribution(dist))
  }

  /** The dictionary after one trial, section by section in the order the experiment runs them. */
  function RecordTrial(b: Metrics, scheme: Scheme, noisy: bool, o: Result<Extended, TrialError>,
                       vector: seq<int>, m: Measurements): (a: Metrics)
    requires CanRecordTrial(b, noisy)
    ensures a.runtimes.Keys == b.runtimes.Keys && a.depths.Keys == b.depths.Keys
  {
    if Progress(o) == 0 then b
    else
      var tr := RecordCircuit(b, scheme, noisy, m);
      if Progress(o) == 1 then tr
      else
        var pts := RecordRun(tr, noisy, m, vector);
        if Progress(o) == 2 then pts else AddAccuracy(pts, noisy, o.value)
  }

  /**
   * One trial, as the three experiment functions run it. With no dictionary
   * (`exp_dict` None) nothing is recorded.
   */
  method RunTrial(rec: ExperimentRecord?, scheme: Scheme, noisy: bool, n: int, dist: string,
                  runSimulation: bool, m: Measurements)
    returns (outcome: Result<Extended, TrialError>)
    requires rec != null ==> CanRecordTrial(rec.Snapshot(), noisy)
    modifies rec
    ensures outcome == TrialOutcome(n, dist, runSimulation, m.decoded)
    ensures rec != null ==>
              rec.Snapshot() == RecordTrial(old(rec.Snapshot()), scheme, noisy,
                                            TrialOutcome(n, dist, runSimulation, m.decoded), TrialVector(n, dist), m)
  {
    ghost var o := TrialOutcome(n, dist, runSimulation, m.decoded);
    var prepared := PrepareInput(n, 0, Stop, 0.0, AngleTop(scheme), dist);
    if prepared.Failure? {
      assert o == Failure(InputFailed(prepared.error)) && Progress(o) == 0;
      return Failure(InputFailed(prepared.error));
    }
    var vector := prepared.value.vector;
    assert vector == InputVector(n, ParseDistribution(dist)) == TrialVector(n, dist);
    // encoding, invert + measurements, transpile
    if rec != null {
      rec.RecordCircuitSections(scheme, noisy, m);
    }

    if !runSimulation {
      assert o == Failure(AccuracyUnbound) && Progress(o) == 1;
      return Failure(AccuracyUnbound);
    }

    // simulate, decode, data points
    if rec != null {
      rec.RecordRunSections(noisy, m, vector);
    }

    // accuracy
    var score := Score(vector, m.decoded, n);
    if score.Failure? {
      assert o == Failure(AccuracyFailed(score.error)) && Progress(o) == 2;
      return Failure(AccuracyFailed(score.error));
    }
    assert o == Success(score.value) && Progress(o) == 3;
    if rec != null {
      rec.AppendAccuracy(noisy, score.value);
    }
    return Success(score.value);
  }

  /** Each runtime list grows by the entry a trial of this mode and progress writes to it, if any. */
  ghost predicate RuntimesAppended(b: Metrics, a: Metrics, scheme: Scheme, noisy: bool, p: nat, m: Measurements) {
    a.runtimes.Keys == b.runtimes.Keys &&
    forall k :: k in b.runtimes ==>
      a.runtimes[k] == b.runtimes[k] +
        (if k.noisy == noisy && StageProgress(k.stage) <= p then [RuntimeValue(scheme, noisy, k.stage, m)] else [])
  }

  /** Each depth list grows by one entry in a pure trial that reached its section, else not at all. */
  ghost predicate DepthsAppended(b: Metrics, a: Metrics, noisy: bool, p: nat, m: Measurements) {
    a.depths.Keys == b.depths.Keys &&
    forall k :: k in b.depths ==>
      a.depths[k] == b.depths[k] + (if !noisy && DepthProgress(k) <= p then [DepthValue(k, m)] else [])
  }

  /** Widths, gate counts and data points grow by the entries of this mode and progress. */
  ghost predicate ListsAppended(b: Metrics, a: Metrics, noisy: bool, p: nat, vector: seq<int>, m: Measurements) {
    a.widths == b.widths + (if !noisy && 1 <= p then [m.width] else []) &&
    a.countOps == b.countOps + (if !noisy && 1 <= p then [m.countOps] else []) &&
    a.dataPoints == b.dataPoints + (if !noisy && 2 <= p then [DataPoint(vector, m.decoded)] else []) &&
    a.noisyDataPoints == b.noisyDataPoints + (if noisy && 2 <= p then [DataPoint(vector, m.decoded)] else []) &&
    a.size == b.size && a.jobs == b.jobs && a.results == b.results
  }

  lemma RecordCircuitRuntimes(b: Metrics, scheme: Scheme, noisy: bool, m: Measurements)
    requires CanRecordTrial(b, noisy)
    ensures RuntimesAppended(b, RecordCircuit(b, scheme, noisy, m), scheme, noisy, 1, m)
  {
    var enc := RecordEncoder(b, scheme, noisy, m);
    var inv := if noisy then enc else AddDepth(enc, InvertMeasurementDepth, m.measuredDepth);
    var a := RecordTranspile(inv, noisy, m);
    assert a == RecordCircuit(b, scheme, noisy, m);
    forall k | k in b.runtimes
      ensures a.runtimes[k] == b.runtimes[k] +
        (if k.noisy == noisy && StageProgress(k.stage) <= 1 then [RuntimeValue(scheme, noisy, k.stage, m)] else [])
    {
      if k == RuntimeKey(Encoder, noisy) {
        assert a.runtimes[k] == enc.runtimes[k];
      } else if k == RuntimeKey(Transpile, noisy) {
        assert enc.runtimes[k] == b.runtimes[k];
      } else {
        assert a.runtimes[k] == enc.runtimes[k];
      }
    }
  }

  lemma RecordCircuitDepths(b: Metrics, scheme: Scheme, noisy: bool, m: Measurements)
    requires CanRecordTrial(b, noisy)
    ensures DepthsAppended(b, RecordCircuit(b, scheme, noisy, m), noisy, 1, m)
  {
    var enc := RecordEncoder(b, scheme, noisy, m);
    var inv := if noisy then enc else AddDepth(enc, InvertMeasurementDepth, m.measuredDepth);
    var a := RecordTranspile(inv, noisy, m);
    assert a == RecordCircuit(b, scheme, noisy, m);
    forall k | k in b.depths
      ensures a.depths[k] == b.depths[k] + (if !noisy && DepthProgress(k) <= 1 then [DepthValue(k, m)] else [])
    {
      if noisy {
        assert a.depths == b.depths;
      } else if k == EncoderDepth {
        assert a.depths[k] == enc.depths[k];
      } else if k == InvertMeasurementDepth {
        assert a.depths[k] == inv.depths[k] && enc.depths[k] == b.depths[k];
      } else if k == TranspileDepth {
        assert inv.depths[k] == b.depths[k];
      } else {
        assert a.depths[k] == b.depths[k];
      }
    }
  }

  lemma RecordCircuitLists(b: Metrics, scheme: Scheme, noisy: bool, vector: seq<int>, m: Measurements)
    requires CanRecordTrial(b, noisy)
    ensures ListsAppended(b, RecordCircuit(b, scheme, noisy, m), noisy, 1, vector, m)
    ensures RecordCircuit(b, scheme, noisy, m).accuracy == b.accuracy
    ensures RecordCircuit(b, scheme, noisy, m).noisyAccuracy == b.noisyAccuracy
  {
    var enc := RecordEncoder(b, scheme, noisy, m);
    var inv := if noisy then enc else AddDepth(enc, InvertMeasurementDepth, m.measuredDepth);
    assert RecordTranspile(inv, noisy, m) == RecordCircuit(b, scheme, noisy, m);
  }

  /** Simulation and decoding append their runtimes to the lists of the trial's mode. */
  lemma RunStepRuntimes(t: Metrics, scheme: Scheme, noisy: bool, vector: seq<int>, m: Measurements)
    requires CanRecordTrial(t, noisy)
    ensures RecordRun(t, noisy, m, vector).runtimes.Keys == t.runtimes.Keys
    ensures forall k :: k in t.runtimes ==>
              RecordRun(t, noisy, m, vector).runtimes[k] == t.runtimes[k] +
                (if k.noisy == noisy && StageProgress(k.stage) == 2 then [RuntimeValue(scheme, noisy, k.stage, m)] else [])
  {
    var sim := RecordSimulate(t, noisy, m);
    var dec := AddRuntime(sim, RuntimeKey(Decoder, noisy), m.decodeElapsed);
    var a := AddDataPoint(dec, noisy, DataPoint(vector, m.decoded));
    assert a == RecordRun(t, noisy, m, vector);
    forall k | k in t.runtimes
      ensures a.runtimes[k] == t.runtimes[k] +
        (if k.noisy == noisy && StageProgress(k.stage) == 2 then [RuntimeValue(scheme, noisy, k.stage, m)] else [])
    {
      if k == RuntimeKey(Simulate, noisy) {
        assert a.runtimes[k] == t.runtimes[k] + [m.simulationTime];
      } else if k == RuntimeKey(Decoder, noisy) {
        assert sim.runtimes[k] == t.runtimes[k];
      } else {
        assert a.runtimes[k] == t.runtimes[k];
      }
    }
  }

  /** Appending the progress-2 runtimes to those of progress 1 gives those of progress 2. */
  lemma RuntimesThenRun(b: Metrics, t: Metrics, r: Metrics, scheme: Scheme, noisy: bool, m: Measurements)
    requires RuntimesAppended(b, t, scheme, noisy, 1, m) && r.runtimes.Keys == t.runtimes.Keys
    requires forall k :: k in t.runtimes ==>
               r.runtimes[k] == t.runtimes[k] +
                 (if k.noisy == noisy && StageProgress(k.stage) == 2 then [RuntimeValue(scheme, noisy, k.stage, m)] else [])
    ensures RuntimesAppended(b, r, scheme, noisy, 2, m)
  {
    forall k | k in b.runtimes
      ensures r.runtimes[k] == b.runtimes[k] +
        (if k.noisy == noisy && StageProgress(k.stage) <= 2 then [RuntimeValue(scheme, noisy, k.stage, m)] else [])
    {
      if k.noisy == noisy && StageProgress(k.stage) == 2 {
        assert t.runtimes[k] == b.runtimes[k];
      }
    }
  }

  lemma RecordRunRuntimes(b: Metrics, t: Metrics, scheme: Scheme, noisy: bool, vector: seq<int>, m: Measurements)
    requires CanRecordTrial(t, noisy) && RuntimesAppended(b, t, scheme, noisy, 1, m)
    ensures RuntimesAppended(b, RecordRun(t, noisy, m, vector), scheme, noisy, 2, m)
  {
    RunStepRuntimes(t, scheme, noisy, vector, m);
    RuntimesThenRun(b, t, RecordRun(t, noisy, m, vector), scheme, noisy, m);
  }

  lemma RecordRunDepths(b: Metrics, t: Metrics, noisy: bool, vector: seq<int>, m: Measurements)
    requires CanRecordTrial(t, noisy) && DepthsAppended(b, t, noisy, 1, m)
    ensures DepthsAppended(b, RecordRun(t, noisy, m, vector), noisy, 2, m)
  {
    var sim := RecordSimulate(t, noisy, m);
    var dec := AddRuntime(sim, RuntimeKey(Decoder, noisy), m.decodeElapsed);
    var a := AddDataPoint(dec, noisy, DataPoint(vector, m.decoded));
    assert a == RecordRun(t, noisy, m, vector);
    assert a.depths == sim.depths;
    forall k | k in b.depths
      ensures a.depths[k] == b.depths[k] + (if !noisy && DepthProgress(k) <= 2 then [DepthValue(k, m)] else [])
    {
      if !noisy && k == SimulateDepth {
        assert a.depths[k] == t.depths[k] + [DepthValue(k, m)];
      } else {
        assert a.depths[k] == t.depths[k];
      }
    }
  }

  lemma RecordRunLists(b: Metrics, t: Metrics, noisy: bool, vector: seq<int>, m: Measurements)
    requires CanRecordTrial(t, noisy) && ListsAppended(b, t, noisy, 1, vector, m)
    ensures ListsAppended(b, RecordRun(t, noisy, m, vector), noisy, 2, vector, m)
    ensures RecordRun(t, noisy, m, vector).accuracy == t.accuracy
    ensures RecordRun(t, noisy, m, vector).noisyAccuracy == t.noisyAccuracy
  {
    var sim := RecordSimulate(t, noisy, m);
    var dec := AddRuntime(sim, RuntimeKey(Decoder, noisy), m.decodeElapsed);
    assert AddDataPoint(dec, noisy, DataPoint(vector, m.decoded)) == RecordRun(t, noisy, m, vector);
  }

  /**
   * Key by key, a trial appends at most one value to each list: the runtime
   * of every stage it reached to the lists of its own mode (plain or
   * "Noisy"), and, in a pure trial only, the depths, width and gate counts;
   * the data point and the accuracy go to the lists of its mode. Sizes, jobs
   * and results are left alone.
   */
  lemma RecordTrialPerKey(b: Metrics, scheme: Scheme, noisy: bool, o: Result<Extended, TrialError>,
                          vector: seq<int>, m: Measurements)
    requires CanRecordTrial(b, noisy)
    ensures RuntimesAppended(b, RecordTrial(b, scheme, noisy, o, vector, m), scheme, noisy, Progress(o), m)
    ensures DepthsAppended(b, RecordTrial(b, scheme, noisy, o, vector, m), noisy, Progress(o), m)
    ensures ListsAppended(b, RecordTrial(b, scheme, noisy, o, vector, m), noisy, Progress(o), vector, m)
    ensures RecordTrial(b, scheme, noisy, o, vector, m).accuracy ==
              b.accuracy + (if !noisy && o.Success? then [o.value] else [])
    ensures RecordTrial(b, scheme, noisy, o, vector, m).noisyAccuracy ==
              b.noisyAccuracy + (if noisy && o.Success? then [o.value] else [])
  {
    RecordTrialRuntimes(b, scheme, noisy, o, vector, m);
    RecordTrialDepths(b, scheme, noisy, o, vector, m);
    RecordTrialLists(b, scheme, noisy, o, vector, m);
  }

  /** The dictionary after a trial, by how far the trial got. */
  lemma RecordTrialSteps(b: Metrics, scheme: Scheme, noisy: bool, o: Result<Extended, TrialError>,
                         vector: seq<int>, m: Measurements)
    requires CanRecordTrial(b, noisy)
    ensures Progress(o) == 0 ==> RecordTrial(b, scheme, noisy, o, vector, m) == b
    ensures Progress(o) == 1 ==> RecordTrial(b, scheme, noisy, o, vector, m) == RecordCircuit(b, scheme, noisy, m)
    ensures Progress(o) == 2 ==>
              RecordTrial(b, scheme, noisy, o, vector, m) ==
              RecordRun(RecordCircuit(b, scheme, noisy, m), noisy, m, vector)
    ensures Progress(o) == 3 ==>
              RecordTrial(b, scheme, noisy, o, vector, m) ==
              AddAccuracy(RecordRun(RecordCircuit(b, scheme, noisy, m), noisy, m, vector), noisy, o.value)
  {
  }

  /** The runtimes of a trial that reached progress p, from those of its first two steps. */
  lemma RuntimesByProgress(b: Metrics, t: Metrics, r: Metrics, a: Metrics, scheme: Scheme, noisy: bool,
                           p: nat, m: Measurements)
    requires p == 0 ==> a.runtimes == b.runtimes
    requires p == 1 ==> a.runtimes == t.runtimes
    requires 2 <= p ==> a.runtimes == r.runtimes
    requires RuntimesAppended(b, t, scheme, noisy, 1, m) && RuntimesAppended(b, r, scheme, noisy, 2, m)
    ensures RuntimesAppended(b, a, scheme, noisy, p, m)
  {
    forall k | k in b.runtimes
      ensures a.runtimes[k] == b.runtimes[k] +
        (if k.noisy == noisy && StageProgress(k.stage) <= p then [RuntimeValue(scheme, noisy, k.stage, m)] else [])
    {
      assert 1 <= StageProgress(k.stage) <= 2;
    }
  }

  /** The depths of a trial that reached progress p, from those of its first two steps. */
  lemma DepthsByProgress(b: Metrics, t: Metrics, r: Metrics, a: Metrics, noisy: bool, p: nat, m: Measurements)
    requires p == 0 ==> a.depths == b.depths
    requires p == 1 ==> a.depths == t.depths
    requires 2 <= p ==> a.depths == r.depths
    requires DepthsAppended(b, t, noisy, 1, m) && DepthsAppended(b, r, noisy, 2, m)
    ensures DepthsAppended(b, a, noisy, p, m)
  {
    forall k | k in b.depths
      ensures a.depths[k] == b.depths[k] + (if !noisy && DepthProgress(k) <= p then [DepthValue(k, m)] else [])
    {
      assert 1 <= DepthProgress(k) <= 2;
    }
  }

  lemma RecordTrialRuntimes(b: Metrics, scheme: Scheme, noisy: bool, o: Result<Extended, TrialError>,
                            vector: seq<int>, m: Measurements)
    requires CanRecordTrial(b, noisy)
    ensures RuntimesAppended(b, RecordTrial(b, scheme, noisy, o, vector, m), scheme, noisy, Progress(o), m)
  {
    RecordTrialSteps(b, scheme, noisy, o, vector, m);
    var t := RecordCircuit(b, scheme, noisy, m);
    RecordCircuitRuntimes(b, scheme, noisy, m);
    RecordRunRuntimes(b, t, scheme, noisy, vector, m);
    RuntimesByProgress(b, t, RecordRun(t, noisy, m, vector), RecordTrial(b, scheme, noisy, o, vector, m),
                       scheme, noisy, Progress(o), m);
  }

  lemma RecordTrialDepths(b: Metrics, scheme: Scheme, noisy: bool, o: Result<Extended, TrialError>,
                          vector: seq<int>, m: Measurements)
    requires CanRecordTrial(b, noisy)
    ensures DepthsAppended(b, RecordTrial(b, scheme, noisy, o, vector, m), noisy, Progress(o), m)
  {
    RecordTrialSteps(b, scheme, noisy, o, vector, m);
    var t := RecordCircuit(b, scheme, noisy, m);
    RecordCircuitDepths(b, scheme, noisy, m);
    RecordRunDepths(b, t, noisy, vector, m);
    DepthsByProgress(b, t, RecordRun(t, noisy, m, vector), RecordTrial(b, scheme, noisy, o, vector, m),
                     noisy, Progress(o), m);
  }

  lemma RecordTrialLists(b: Metrics, scheme: Scheme, noisy: bool, o: Result<Extended, TrialError>,
                         vector: seq<int>, m: Measurements)
    requires CanRecordTrial(b, noisy)
    ensures ListsAppended(b, RecordTrial(b, scheme, noisy, o, vector, m), noisy, Progress(o), vector, m)
    ensures RecordTrial(b, scheme, noisy, o, vector, m).accuracy ==
              b.accuracy + (if !noisy && o.Success? then [o.value] else [])
    ensures RecordTrial(b, scheme, noisy, o, vector, m).noisyAccuracy ==
              b.noisyAccuracy + (if noisy && o.Success? then [o.value] else [])
  {
    var a := RecordTrial(b, scheme, noisy, o, vector, m);
    if Progress(o) == 0 {
      assert a == b;
    } else {
      var t := RecordCircuit(b, scheme, noisy, m);
      RecordCircuitLists(b, scheme, noisy, vector, m);
      if 2 <= Progress(o) {
        RecordRunLists(b, t, noisy, vector, m);
      }
    }
  }

  /**
   * A noisy trial leaves every plain runtime list, the depths, widths, gate
   * counts, pure data points and pure accuracies as they were; a complete one
   * adds exactly one entry to each "Noisy" list.
   */
  lemma NoisyTrialLeavesPureLists(b: Metrics, scheme: Scheme, o: Result<Extended, TrialError>,
                                  vector: seq<int>, m: Measurements)
    requires CanRecordTrial(b, true)
    ensures var a := RecordTrial(b, scheme, true, o, vector, m);
      (forall k :: k in b.runtimes && !k.noisy ==> a.runtimes[k] == b.runtimes[k]) &&
      a.depths == b.depths && a.widths == b.widths && a.countOps == b.countOps &&
      a.dataPoints == b.dataPoints && a.accuracy == b.accuracy &&
      (forall k :: k in b.runtimes && k.noisy ==> |a.runtimes[k]| <= |b.runtimes[k]| + 1) &&
      (o.Success? ==>
         (forall k :: k in b.runtimes && k.noisy ==> |a.runtimes[k]| == |b.runtimes[k]| + 1) &&
         |a.noisyDataPoints| == |b.noisyDataPoints| + 1 && a.noisyAccuracy == b.noisyAccuracy + [o.value])
  {
    RecordTrialPerKey(b, scheme, true, o, vector, m);
    NoisyAppendsOnly(b, RecordTrial(b, scheme, true, o, vector, m), scheme, o, vector, m);
  }

  lemma NoisyAppendsOnly(b: Metrics, a: Metrics, scheme: Scheme, o: Result<Extended, TrialError>,
                         vector: seq<int>, m: Measurements)
    requires RuntimesAppended(b, a, scheme, true, Progress(o), m) && DepthsAppended(b, a, true, Progress(o), m)
    requires ListsAppended(b, a, true, Progress(o), vector, m)
    requires a.accuracy == b.accuracy && a.noisyAccuracy == b.noisyAccuracy + (if o.Success? then [o.value] else [])
    ensures (forall k :: k in b.runtimes && !k.noisy ==> a.runtimes[k] == b.runtimes[k]) &&
      a.depths == b.depths && a.widths == b.widths && a.countOps == b.countOps &&
      a.dataPoints == b.dataPoints && a.accuracy == b.accuracy &&
      (forall k :: k in b.runtimes && k.noisy ==> |a.runtimes[k]| <= |b.runtimes[k]| + 1) &&
      (o.Success? ==>
         (forall k :: k in b.runtimes && k.noisy ==> |a.runtimes[k]| == |b.runtimes[k]| + 1) &&
         |a.noisyDataPoints| == |b.noisyDataPoints| + 1 && a.noisyAccuracy == b.noisyAccuracy + [o.value])
  {
    forall k | k in b.depths ensures a.depths[k] == b.depths[k] {
    }
    assert a.depths == b.depths;
    if o.Success? {
      forall k | k in b.runtimes && k.noisy ensures |a.runtimes[k]| == |b.runtimes[k]| + 1 {
        assert StageProgress(k.stage) <= 3;
      }
    }
  }

  /**
   * A complete pure trial adds exactly one entry to every plain runtime list,
   * every depth list, the widths, the gate counts and the data points, and its
   * accuracy to the accuracy list, while every "Noisy" list stays as it was.
   */
  lemma PureTrialAppendsOnce(b: Metrics, scheme: Scheme, o: Result<Extended, TrialError>,
                             vector: seq<int>, m: Measurements)
    requires CanRecordTrial(b, false) && o.Success?
    ensures forall k :: k in b.runtimes && !k.noisy ==>
              |RecordTrial(b, scheme, false, o, vector, m).runtimes[k]| == |b.runtimes[k]| + 1
    ensures forall k :: k in b.runtimes && k.noisy ==>
              RecordTrial(b, scheme, false, o, vector, m).runtimes[k] == b.runtimes[k]
    ensures forall k :: k in b.depths ==>
              |RecordTrial(b, scheme, false, o, vector, m).depths[k]| == |b.depths[k]| + 1
    ensures |RecordTrial(b, scheme, false, o, vector, m).widths| == |b.widths| + 1
    ensures |RecordTrial(b, scheme, false, o, vector, m).countOps| == |b.countOps| + 1
    ensures RecordTrial(b, scheme, false, o, vector, m).dataPoints == b.dataPoints + [DataPoint(vector, m.decoded)]
    ensures RecordTrial(b, scheme, false, o, vector, m).accuracy == b.accuracy + [o.value]
    ensures RecordTrial(b, scheme, false, o, vector, m).noisyDataPoints == b.noisyDataPoints
    ensures RecordTrial(b, scheme, false, o, vector, m).noisyAccuracy == b.noisyAccuracy
  {
    RecordTrialPerKey(b, scheme, false, o, vector, m);
    CompletePureAppends(b, RecordTrial(b, scheme, false, o, vector, m), scheme, vector, m);
  }

  lemma CompletePureAppends(b: Metrics, a: Metrics, scheme: Scheme, vector: seq<int>, m: Measurements)
    requires RuntimesAppended(b, a, scheme, false, 3, m) && DepthsAppended(b, a, false, 3, m)
    ensures forall k :: k in b.runtimes && !k.noisy ==> |a.runtimes[k]| == |b.runtimes[k]| + 1
    ensures forall k :: k in b.runtimes && k.noisy ==> a.runtimes[k] == b.runtimes[k]
    ensures forall k :: k in b.depths ==> |a.depths[k]| == |b.depths[k]| + 1
  {
    forall k | k in b.runtimes && !k.noisy ensures |a.runtimes[k]| == |b.runtimes[k]| + 1 {
      assert StageProgress(k.stage) <= 3;
    }
    forall k | k in b.depths ensures |a.depths[k]| == |b.depths[k]| + 1 {
      assert DepthProgress(k) <= 3;
    }
  }

  /**
   * A simulated trial on a linear input, or on a reversing input of
   * perfect-square size, whose decoder returns at least n non-negative values
   * always produces an accuracy, and it lies in [0, 1].
   */
  lemma SimulatedTrialScores(n: int, dist: string, decoded: seq<real>)
    requires 1 <= n <= |decoded|
    requires ParseDistribution(dist) == Linear || (ParseDistribution(dist) == Reversing && IsSquare(n))
    requires forall i :: 0 <= i < n ==> 0.0 <= decoded[i]
    ensures TrialOutcome(n, dist, true, decoded).Success?
    ensures TrialOutcome(n, dist, true, decoded).value.Finite?
    ensures 0.0 <= TrialOutcome(n, dist, true, decoded).value.v <= 1.0
  {
    var v := InputVector(n, ParseDistribution(dist));
    InputVectorInRange(n, ParseDistribution(dist));
    ScoreInUnitRange(v, decoded, n);
  }

  // ---------------------------------------------------------------------
  // The decode mode of frqiExperimentIBMQ

  /** What stops the decode loop. */
  datatype DecodeError =
    | SizeMissing                                   // exp_dict['size'] has no entry for this result
    | DecodeInputFailed(inputError: InputError)
    | DecodeAccuracyFailed(accuracyError: AccuracyError)

  /** The dictionary after a decode pass, and the error that ended it, if any. */
  datatype Pass = Pass(after: Metrics, error: Option<DecodeError>)

  /** The decode mode writes to the plain Simulate and Decoder runtime lists. */
  ghost predicate CanDecode(b: Metrics) {
    RuntimeKey(Simulate, false) in b.runtimes && RuntimeKey(Decoder, false) in b.runtimes
  }

  /**
   * The results the fetch loop collects: the result of each job in order, up
   * to the first job whose result cannot be retrieved.
   */
  function Fetched(jobs: seq<JobHandle>, fetch: JobHandle -> Option<JobResult>): (r: seq<JobResult>)
    ensures |r| <= |jobs|
  {
    if jobs == [] then []
    else
      match fetch(jobs[0])
      case None => []
      case Some(res) => [res] + Fetched(jobs[1..], fetch)
  }

  lemma FetchedFrom(jobs: seq<JobHandle>, i: nat, fetch: JobHandle -> Option<JobResult>)
    requires i < |jobs|
    ensures Fetched(jobs[i..], fetch) ==
              if fetch(jobs[i]).None? then [] else [fetch(jobs[i]).value] + Fetched(jobs[i + 1..], fetch)
  {
    assert jobs[i..][0] == jobs[i] && jobs[i..][1..] == jobs[i + 1..];
  }

  /**
   * The fetched results are those of the first jobs, in job order, and the
   * job after the last of them, if any, is one whose result cannot be
   * retrieved.
   */
  lemma {:induction false} FetchedPrefix(jobs: seq<JobHandle>, fetch: JobHandle -> Option<JobResult>)
    ensures |Fetched(jobs, fetch)| <= |jobs|
    ensures forall i :: 0 <= i < |Fetched(jobs, fetch)| ==> fetch(jobs[i]) == Some(Fetched(jobs, fetch)[i])
    ensures |Fetched(jobs, fetch)| < |jobs| ==> fetch(jobs[|Fetched(jobs, fetch)|]) == None
  {
    if jobs != [] && fetch(jobs[0]).Some? {
      FetchedPrefix(jobs[1..], fetch);
      var r := Fetched(jobs, fetch);
      assert r == [fetch(jobs[0]).value] + Fetched(jobs[1..], fetch);
      forall i | 1 <= i < |r| ensures fetch(jobs[i]) == Some(r[i]) {
        assert jobs[i] == jobs[1..][i - 1];
      }
    }
  }

  /**
   * Fetched is the longest prefix of the jobs whose results can all be
   * retrieved: any sequence with the three properties of its contract is it.
   */
  lemma {:induction false} FetchedUnique(jobs: seq<JobHandle>, fetch: JobHandle -> Option<JobResult>, r: seq<JobResult>)
    requires |r| <= |jobs|
    requires forall i :: 0 <= i < |r| ==> fetch(jobs[i]) == Some(r[i])
    requires |r| < |jobs| ==> fetch(jobs[|r|]) == None
    ensures r == Fetched(jobs, fetch)
  {
    if jobs != [] && r != [] {
      assert fetch(jobs[0]) == Some(r[0]);
      FetchedUnique(jobs[1..], fetch, r[1..]);
      assert r == [r[0]] + r[1..];
    }
  }

  /** `if not exp_dict['results']`: fetch only when nothing is stored. */
  function FetchStep(b: Metrics, fetch: JobHandle -> Option<JobResult>): (a: Metrics)
    ensures a.(results := b.results) == b
  {
    if b.results == [] then b.(results := Fetched(b.jobs, fetch)) else b
  }

  /**
   * Results are fetched at most once: once a fetch step has stored results, a
   * later one, whatever it would fetch, keeps them; a fetch step that stored
   * none leaves the record as it was, so the next one starts afresh.
   */
  lemma FetchStepRepeat(b: Metrics, f: JobHandle -> Option<JobResult>, g: JobHandle -> Option<JobResult>)
    ensures FetchStep(b, f).results != [] ==> FetchStep(FetchStep(b, f), g) == FetchStep(b, f)
    ensures FetchStep(b, f).results == [] ==> FetchStep(b, f) == b && FetchStep(FetchStep(b, f), g) == FetchStep(b, g)
  {
  }

  /** The decode loop's body for result i, in the order the source runs its steps. */
  function DecodeOne(b: Metrics, i: nat, res: JobResult, dist: string, decoder: (Counts, int) -> seq<real>,
                     decodeElapsed: nat -> real): (p: Pass)
    requires CanDecode(b)
    ensures CanDecode(p.after) && p.after.runtimes.Keys == b.runtimes.Keys
    ensures p.after.size == b.size && p.after.jobs == b.jobs && p.after.results == b.results
  {
    if i >= |b.size| then Pass(b, Some(SizeMissing))
    else
      var n := b.size[i];
      if n < 0 then Pass(b, Some(DecodeInputFailed(MathDomainError)))
      else if ParseDistribution(dist) == Random then Pass(b, Some(DecodeInputFailed(RandomRejected)))
      else
        var vector := InputVector(n, ParseDistribution(dist));
        var output := decoder(res.counts, n);
        var sim := AddRuntime(b, RuntimeKey(Simulate, false), res.timeTaken);
        var dec := AddRuntime(sim, RuntimeKey(Decoder, false), decodeElapsed(i));
        var pts := AddDataPoint(dec, false, DataPoint(vector, output));
        match Score(vector, output, n)
        case Failure(e) => Pass(pts, Some(DecodeAccuracyFailed(e)))
        case Success(a) => Pass(AddAccuracy(pts, false, a), None)
  }

  /** Results start.. of rs decoded in order, stopping at the first error. */
  function DecodeAll(b: Metrics, rs: seq<JobResult>, start: nat, dist: string,
                     decoder: (Counts, int) -> seq<real>, decodeElapsed: nat -> real): (p: Pass)
    requires CanDecode(b)
    ensures CanDecode(p.after) && p.after.runtimes.Keys == b.runtimes.Keys
    ensures p.after.size == b.size && p.after.jobs == b.jobs && p.after.results == b.results
    decreases |rs| - start
  {
    if start >= |rs| then Pass(b, None)
    else
      var p := DecodeOne(b, start, rs[start], dist, decoder, decodeElapsed);
      if p.error.Some? then p else DecodeAll(p.after, rs, start + 1, dist, decoder, decodeElapsed)
  }

  /** One decode-mode call: the fetch step, then every stored result decoded. */
  function DecodeCall(b: Metrics, dist: string, fetch: JobHandle -> Option<JobResult>,
                      decoder: (Counts, int) -> seq<real>, decodeElapsed: nat -> real): (p: Pass)
    requires CanDecode(b)
    ensures p.after.results == if b.results == [] then Fetched(b.jobs, fetch) else b.results
    ensures p.after.size == b.size && p.after.jobs == b.jobs
    ensures CanDecode(p.after) && p.after.runtimes.Keys == b.runtimes.Keys
  {
    var f := FetchStep(b, fetch);
    DecodeAll(f, f.results, 0, dist, decoder, decodeElapsed)
  }

  /** The times the service reported for each result, in order. */
  function TimesTaken(rs: seq<JobResult>): seq<real> {
    seq(|rs|, i requires 0 <= i < |rs| => rs[i].timeTaken)
  }

  /**
   * a is b after decoding rs without error: the Simulate list gained the
   * reported times, the Decoder list, the data points and the accuracies one
   * entry per result, and nothing else changed.
   */
  ghost predicate DecodeAppended(b: Metrics, a: Metrics, rs: seq<JobResult>) {
    CanDecode(b) && a.runtimes.Keys == b.runtimes.Keys &&
    a.runtimes[RuntimeKey(Simulate, false)] == b.runtimes[RuntimeKey(Simulate, false)] + TimesTaken(rs) &&
    |a.runtimes[RuntimeKey(Decoder, false)]| == |b.runtimes[RuntimeKey(Decoder, false)]| + |rs| &&
    (forall k :: k in b.runtimes && k != RuntimeKey(Simulate, false) && k != RuntimeKey(Decoder, false) ==>
       a.runtimes[k] == b.runtimes[k]) &&
    |a.dataPoints| == |b.dataPoints| + |rs| && |a.accuracy| == |b.accuracy| + |rs| &&
    a.depths == b.depths && a.widths == b.widths && a.countOps == b.countOps &&
    a.noisyDataPoints == b.noisyDataPoints && a.noisyAccuracy == b.noisyAccuracy &&
    a.size == b.size && a.jobs == b.jobs && a.results == b.results
  }

  lemma DecodeOneAppends(b: Metrics, i: nat, res: JobResult, dist: string,
                         decoder: (Counts, int) -> seq<real>, decodeElapsed: nat -> real)
    requires CanDecode(b)
    requires DecodeOne(b, i, res, dist, decoder, decodeElapsed).error.None?
    ensures DecodeAppended(b, DecodeOne(b, i, res, dist, decoder, decodeElapsed).after, [res])
  {
    assert TimesTaken([res]) == [res.timeTaken];
  }

  lemma DecodeAppendedChain(b: Metrics, c: Metrics, a: Metrics, xs: seq<JobResult>, ys: seq<JobResult>)
    requires DecodeAppended(b, c, xs) && DecodeAppended(c, a, ys)
    ensures DecodeAppended(b, a, xs + ys)
  {
    assert TimesTaken(xs + ys) == TimesTaken(xs) + TimesTaken(ys);
  }

  /**
   * A decode pass that ends without error appended exactly one Simulate
   * runtime (the service's reported time), one Decoder runtime, one data
   * point and one accuracy per result, and changed nothing else.
   */
  lemma {:induction false} DecodeAllAppends(b: Metrics, rs: seq<JobResult>, start: nat, dist: string,
                                            decoder: (Counts, int) -> seq<real>, decodeElapsed: nat -> real)
    requires CanDecode(b) && start <= |rs|
    requires DecodeAll(b, rs, start, dist, decoder, decodeElapsed).error.None?
    ensures DecodeAppended(b, DecodeAll(b, rs, start, dist, decoder, decodeElapsed).after, rs[start..])
    decreases |rs| - start
  {
    if start == |rs| {
      assert TimesTaken([]) == [];
    } else {
      var p := DecodeOne(b, start, rs[start], dist, decoder, decodeElapsed);
      DecodeOneAppends(b, start, rs[start], dist, decoder, decodeElapsed);
      DecodeAllAppends(p.after, rs, start + 1, dist, decoder, decodeElapsed);
      DecodeAppendedChain(b, p.after, DecodeAll(p.after, rs, start + 1, dist, decoder, decodeElapsed).after,
                          [rs[start]], rs[start + 1..]);
      assert [rs[start]] + rs[start + 1..] == rs[start..];
    }
  }

  /**
   * A call that succeeds leaves the fetched results stored and appends one
   * entry per stored result to the Simulate and Decoder runtimes, the data
   * points and the accuracies.
   */
  lemma DecodeCallAppends(b: Metrics, dist: string, fetch: JobHandle -> Option<JobResult>,
                          decoder: (Counts, int) -> seq<real>, decodeElapsed: nat -> real)
    requires CanDecode(b)
    requires DecodeCall(b, dist, fetch, decoder, decodeElapsed).error.None?
    ensures var a := DecodeCall(b, dist, fetch, decoder, decodeElapsed).after;
      a.results == (if b.results == [] then Fetched(b.jobs, fetch) else b.results) &&
      DecodeAppended(FetchStep(b, fetch), a, a.results)
  {
    var f := FetchStep(b, fetch);
    DecodeAllAppends(f, f.results, 0, dist, decoder, decodeElapsed);
    assert f.results[0..] == f.results;
  }

  /**
   * Once results are stored, a further call does not fetch again: it decodes
   * the same results whatever the service would now return, and when both
   * calls succeed every result has been counted twice.
   */
  lemma RepeatedDecode(b: Metrics, dist: string, fetch: JobHandle -> Option<JobResult>,
                       refetch: JobHandle -> Option<JobResult>,
                       decoder: (Counts, int) -> seq<real>, decodeElapsed: nat -> real)
    requires CanDecode(b)
    requires DecodeCall(b, dist, fetch, decoder, decodeElapsed).after.results != []
    ensures var a := DecodeCall(b, dist, fetch, decoder, decodeElapsed).after;
      DecodeCall(a, dist, refetch, decoder, decodeElapsed) == DecodeCall(a, dist, fetch, decoder, decodeElapsed) &&
      DecodeCall(a, dist, fetch, decoder, decodeElapsed).after.results == a.results
    ensures var first := DecodeCall(b, dist, fetch, decoder, decodeElapsed);
      var second := DecodeCall(first.after, dist, fetch, decoder, decodeElapsed);
      first.error.None? && second.error.None? ==>
        |second.after.accuracy| == |b.accuracy| + 2 * |first.after.results| &&
        |second.after.dataPoints| == |b.dataPoints| + 2 * |first.after.results|
  {
    var first := DecodeCall(b, dist, fetch, decoder, decodeElapsed);
    var a := first.after;
    assert FetchStep(a, refetch) == a == FetchStep(a, fetch);
    var second := DecodeCall(a, dist, fetch, decoder, decodeElapsed);
    if first.error.None? && second.error.None? {
      DecodeCallAppends(b, dist, fetch, decoder, decodeElapsed);
      DecodeCallAppends(a, dist, fetch, decoder, decodeElapsed);
    }
  }
}
