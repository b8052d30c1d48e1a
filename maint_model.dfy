// The predictive-maintenance agent's model wrapper: six machine readings per sample
// fill a bounded window, which is normalised (by a fitted scaler, or column by column
// when there is none); a regressor's remaining-useful-life estimate, or a heuristic
// when there is no regressor, becomes hours, a health score, a failure probability
// and a confidence. The regressor and the scaler are outside the model.

module MaintModel {
  import opened PyValues

  /** Temperature, vibration, pressure, rpm, torque and tool wear, in that order. */
  type Sample = seq<real>

  const Temperature := 0
  const Vibration := 1
  const ToolWear := 5

  /** A reading under its first, second or third name, else the default. */
  function Reading(raw: Dict, names: seq<string>, default: real): Value
    requires |names| == 3
  {
    Get(raw, names[0], Get(raw, names[1], Get(raw, names[2], Num(default))))
  }

  /** `_extract_features`: each feature under one of three names, with the defaults
      50, 0.5, 100, 1500, 50 and 0; None where `float()` raises, which `preprocess`
      catches. */
  function ExtractFeatures(raw: Dict): (f: Option<Sample>)
    ensures f.Some? ==> |f.value| == 6
  {
    Converted([Reading(raw, ["temperature", "Temperature_C", "temp"], 50.0),
               Reading(raw, ["vibration", "Vibration_Hz", "vib"], 0.5),
               Reading(raw, ["pressure", "Pressure_psi", "press"], 100.0),
               Reading(raw, ["rpm", "RPM", "speed"], 1500.0),
               Reading(raw, ["torque", "Torque_Nm", "torq"], 50.0),
               Reading(raw, ["tool_wear", "Tool_Wear_mm", "wear"], 0.0)], PyFloat)
  }

  predicate Rows(window: seq<Sample>)
  {
    forall i :: 0 <= i < |window| ==> |window[i]| == 6
  }

  function Column(window: seq<Sample>, k: nat): (c: seq<real>)
    requires Rows(window) && k < 6
    ensures |c| == |window| && forall i :: 0 <= i < |window| ==> c[i] == window[i][k]
  {
    seq(|window|, i requires 0 <= i < |window| => window[i][k])
  }

  /** The average of each feature over the window. */
  function ColumnMeans(window: seq<Sample>): (m: Sample)
    requires window != [] && Rows(window)
    ensures |m| == 6 && forall k :: 0 <= k < 6 ==> m[k] == Mean(Column(window, k))
  {
    seq(6, k requires 0 <= k < 6 => Mean(Column(window, k)))
  }

  /** The normalisation used when there is no scaler: each feature minus its window
      mean, over its standard deviation plus 1e-8. The deviations are computed by
      numpy (a square root) and are inputs here. */
  function ZScore(window: seq<Sample>, std: seq<real>): (z: seq<Sample>)
    requires Rows(window) && |std| == 6 && forall k :: 0 <= k < 6 ==> std[k] >= 0.0
    ensures |z| == |window| && Rows(z)
  {
    if window == [] then []
    else
      var means := ColumnMeans(window);
      seq(|window|, i requires 0 <= i < |window| =>
        seq(6, k requires 0 <= k < 6 => (window[i][k] - means[k]) / (std[k] + 0.00000001)))
  }

  /** The window as buffered, and as normalised for the regressor. */
  datatype Window = Window(readings: seq<Sample>, scaled: seq<Sample>)

  /** The regressor's output is in hours below 1000 and in days from 1000 on. */
  function RulHours(rulRaw: real): real
  {
    if rulRaw < 1000.0 then rulRaw else rulRaw * 24.0
  }

  /** Health is the share of a week of remaining life, clamped into [0, 100]. */
  function Health(rulHours: real): (h: real)
    ensures 0.0 <= h <= 100.0
  {
    Min(100.0, Max(0.0, rulHours / 168.0 * 100.0))
  }

  /** The failure probability implied by a health score. */
  function FailureFromHealth(health: real): (p: real)
    ensures 0.0 <= p <= 1.0
  {
    Max(0.0, Min(1.0, 1.0 - health / 100.0))
  }

  /** Confidence is highest for short remaining life, then for long, then in between. */
  function Confidence(rulHours: real): real
  {
    if rulHours > 72.0 then 0.85 else if rulHours > 24.0 then 0.75 else 0.90
  }

  datatype PmPrediction = PmPrediction(rulHours: real, healthScore: real, failureProbability: real, confidence: real)

  const ErrorPrediction := PmPrediction(48.0, 50.0, 0.5, 0.0)
  const MockBaseRul := 72.0

  /** `_mock_predict` on the window's feature averages: 72 hours, less 20 for vibration
      above 0.8, 15 for temperature above 80 and 10 for tool wear above 0.5. */
  function MockPredict(averages: Sample): (p: PmPrediction)
    requires |averages| == 6
  {
    var rul := Max(0.0, MockBaseRul
      - (if averages[Vibration] > 0.8 then 20.0 else 0.0)
      - (if averages[Temperature] > 80.0 then 15.0 else 0.0)
      - (if averages[ToolWear] > 0.5 then 10.0 else 0.0));
    var health := Health(rul);
    PmPrediction(rul, health, FailureFromHealth(health), 0.70)
  }

  /** The class probabilities the regressor reports, if it reports any. */
  datatype Probabilities = NoProbabilities | ClassProbabilities(ps: seq<real>)

  /** What inference does for a window: there is no regressor, the regressor returns
      its outputs (and maybe class probabilities), or it raises. */
  datatype Inference = NoRegressor | Regressed(outputs: seq<real>, probabilities: Probabilities) | Fails

  /** `predict`. The heuristic reads the averages of the readings as buffered (see the
      findings: the code as written hands it the normalised window). */
  function Predict(inference: Inference, window: Window): (p: PmPrediction)
    requires inference.NoRegressor? ==> window.readings != [] && Rows(window.readings)
    ensures 0.0 <= p.healthScore <= 100.0
    ensures inference.Fails? ==> p == PmPrediction(48.0, 50.0, 0.5, 0.0)
    ensures inference.NoRegressor? ==>
      27.0 <= p.rulHours <= 72.0 && 0.0 <= p.failureProbability <= 1.0 && p.confidence == 0.70
    ensures inference.Regressed? ==>
      p.healthScore == Health(p.rulHours) && p.confidence == Confidence(p.rulHours)
      && p.confidence in {0.75, 0.85, 0.90}
  {
    match inference
    case Fails => ErrorPrediction
    case NoRegressor =>
      MockRange(ColumnMeans(window.readings));
      MockPredict(ColumnMeans(window.readings))
    case Regressed(outputs, probabilities) =>
      var rul := RulHours(if outputs == [] then 48.0 else outputs[0]);
      var health := Health(rul);
      var reported := match probabilities
        case NoProbabilities => 0.5
        case ClassProbabilities(ps) => if |ps| > 1 then ps[1] else 0.0;
      var failure := if reported == 0.5 then FailureFromHealth(health) else reported;
      PmPrediction(rul, health, failure, Confidence(rul))
  }

  /** The heuristic as the code runs it: on the averages of the normalised window. */
  function MockAsWritten(window: Window): (p: PmPrediction)
    requires window.scaled != [] && Rows(window.scaled)
    ensures 27.0 <= p.rulHours <= 72.0 && 0.0 <= p.failureProbability <= 1.0 && p.confidence == 0.70
  {
    MockRange(ColumnMeans(window.scaled));
    MockPredict(ColumnMeans(window.scaled))
  }

  type Scaler = seq<Sample> -> seq<Sample>

  class PmModel {
    const sequenceLength: nat
    /** The fitted scaler, if one was loaded. */
    const scaler: Option<Scaler>
    /** The recent samples, oldest first. */
    var dataBuffer: seq<Sample>

    predicate Valid()
      reads this
    {
      |dataBuffer| <= sequenceLength && Rows(dataBuffer)
    }

    constructor (sequenceLength: nat, scaler: Option<Scaler>)
      ensures this.sequenceLength == sequenceLength && this.scaler == scaler
      ensures dataBuffer == [] && Valid()
    {
      this.sequenceLength := sequenceLength;
      this.scaler := scaler;
      dataBuffer := [];
    }

    /** `preprocess`: the sample joins the bounded window; once it is full the window
        is returned with its normalised form. A reading that does not convert changes
        nothing. */
    method Preprocess(raw: Dict, std: seq<real>) returns (window: Option<Window>)
      requires Valid() && |std| == 6 && forall k :: 0 <= k < 6 ==> std[k] >= 0.0
      modifies this
      ensures Valid()
      ensures ExtractFeatures(raw).None? ==> dataBuffer == old(dataBuffer) && window.None?
      ensures ExtractFeatures(raw).Some? ==>
        dataBuffer == Push(old(dataBuffer), ExtractFeatures(raw).value, sequenceLength)
      ensures window.Some? <==> ExtractFeatures(raw).Some? && |dataBuffer| >= sequenceLength
      ensures window.Some? ==>
        window.value.readings == dataBuffer
        && window.value.scaled == (if scaler.Some? then scaler.value(dataBuffer) else ZScore(dataBuffer, std))
    {
      var features := ExtractFeatures(raw);
      if features.None? {
        return None;
      }
      PushRows(dataBuffer, features.value, sequenceLength);
      dataBuffer := Push(dataBuffer, features.value, sequenceLength);
      if |dataBuffer| < sequenceLength {
        return None;
      }
      var scaled := if scaler.Some? then scaler.value(dataBuffer) else ZScore(dataBuffer, std);
      window := Some(Window(dataBuffer, scaled));
    }

    /** `reset_buffer` */
    method ResetBuffer()
      modifies this
      ensures dataBuffer == [] && Valid()
    {
      dataBuffer := [];
    }
  }

  lemma PushRows(window: seq<Sample>, s: Sample, maxLen: nat)
    requires Rows(window) && |s| == 6
    ensures Rows(Push(window, s, maxLen))
  {
    var all := window + [s];
    assert Rows(all);
  }

  // ---------------------------------------------------------------- properties

  /** The readings of an empty message are the six defaults. */
  lemma DefaultFeatures()
    ensures ExtractFeatures(map[]) == Some([50.0, 0.5, 100.0, 1500.0, 50.0, 0.0])
  {
    var empty: Dict := map[];
    var vs := [Num(50.0), Num(0.5), Num(100.0), Num(1500.0), Num(50.0), Num(0.0)];
    assert [Reading(empty, ["temperature", "Temperature_C", "temp"], 50.0),
            Reading(empty, ["vibration", "Vibration_Hz", "vib"], 0.5),
            Reading(empty, ["pressure", "Pressure_psi", "press"], 100.0),
            Reading(empty, ["rpm", "RPM", "speed"], 1500.0),
            Reading(empty, ["torque", "Torque_Nm", "torq"], 50.0),
            Reading(empty, ["tool_wear", "Tool_Wear_mm", "wear"], 0.0)] == vs;
    ConvertedNums(vs, [50.0, 0.5, 100.0, 1500.0, 50.0, 0.0], PyFloat);
  }

  /** A regressor's prediction: hours, a health score in [0, 100] that grows with the
      remaining life, a failure probability that is the model's own unless that is
      exactly 0.5 (or it reports none), and the confidence band of the hours. */
  lemma RegressedPrediction(outputs: seq<real>, probabilities: Probabilities, window: Window)
    ensures var p := Predict(Regressed(outputs, probabilities), window);
      var rulRaw := if outputs == [] then 48.0 else outputs[0];
      (rulRaw < 1000.0 ==> p.rulHours == rulRaw)
      && (rulRaw >= 1000.0 ==> p.rulHours == rulRaw * 24.0)
      && 0.0 <= p.healthScore <= 100.0
      && (0.0 <= p.rulHours <= 168.0 ==> p.healthScore * 168.0 == p.rulHours * 100.0)
      && (p.rulHours >= 168.0 ==> p.healthScore == 100.0)
      && (probabilities.NoProbabilities? ==> p.failureProbability == 1.0 - p.healthScore / 100.0)
      && (probabilities.ClassProbabilities? && |probabilities.ps| <= 1 ==> p.failureProbability == 0.0)
      && (probabilities.ClassProbabilities? && |probabilities.ps| > 1 && probabilities.ps[1] != 0.5
          ==> p.failureProbability == probabilities.ps[1])
      && (p.rulHours > 72.0 ==> p.confidence == 0.85)
      && (24.0 < p.rulHours <= 72.0 ==> p.confidence == 0.75)
      && (p.rulHours <= 24.0 ==> p.confidence == 0.90)
  {
  }

  /** More remaining life never means lower health, nor a higher derived failure
      probability. */
  lemma HealthMonotone(r1: real, r2: real)
    requires r1 <= r2
    ensures Health(r1) <= Health(r2)
    ensures FailureFromHealth(Health(r2)) <= FailureFromHealth(Health(r1))
  {
  }

  /** The heuristic's remaining life is 72 less the penalties that apply, between 27
      and 72 hours; its health and failure probability are consistent with it. */
  lemma MockRange(averages: Sample)
    requires |averages| == 6
    ensures var p := MockPredict(averages);
      27.0 <= p.rulHours <= 72.0
      && p.rulHours == 72.0 - (if averages[Vibration] > 0.8 then 20.0 else 0.0)
                            - (if averages[Temperature] > 80.0 then 15.0 else 0.0)
                            - (if averages[ToolWear] > 0.5 then 10.0 else 0.0)
      && p.healthScore * 168.0 == p.rulHours * 100.0
      && p.failureProbability == 1.0 - p.healthScore / 100.0
      && p.confidence == 0.70
  {
  }

  /** Each feature's window average lies between the feature's bounds over the
      window. */
  lemma ColumnMeanBounds(window: seq<Sample>, k: nat, lo: real, hi: real)
    requires window != [] && Rows(window) && k < 6
    requires forall i :: 0 <= i < |window| ==> lo <= window[i][k] <= hi
    ensures lo <= ColumnMeans(window)[k] <= hi
  {
    MeanBounds(Column(window, k), lo, hi);
  }

  // ------------------------------------------------- the heuristic's normalised input

  lemma MeanOfOne(x: real)
    ensures Mean([x]) == x
  {
    assert [x][..0] == [];
    assert Sum([x]) == x;
  }

  function Centred(xs: seq<real>, m: real, d: real): (ys: seq<real>)
    requires d != 0.0
    ensures |ys| == |xs| && forall i :: 0 <= i < |xs| ==> ys[i] == (xs[i] - m) / d
  {
    seq(|xs|, i requires 0 <= i < |xs| => (xs[i] - m) / d)
  }

  lemma {:induction false} SumCentred(xs: seq<real>, m: real, d: real)
    requires d != 0.0
    ensures Sum(Centred(xs, m, d)) == (Sum(xs) - |xs| as real * m) / d
  {
    if xs != [] {
      var init := xs[..|xs| - 1];
      var last := xs[|xs| - 1];
      SumCentred(init, m, d);
      assert Centred(xs, m, d)[..|xs| - 1] == Centred(init, m, d);
      DivAdd(Sum(init) - |init| as real * m, last - m, d);
    }
  }

  lemma DivAdd(a: real, b: real, d: real)
    requires d != 0.0
    ensures a / d + b / d == (a + b) / d
  {
  }

  /** Every feature of a column-normalised window averages to zero. */
  lemma ZScoreMeansZero(window: seq<Sample>, std: seq<real>, k: nat)
    requires window != [] && Rows(window) && |std| == 6 && forall j :: 0 <= j < 6 ==> std[j] >= 0.0
    requires k < 6
    ensures Mean(Column(ZScore(window, std), k)) == 0.0
  {
    var c := Column(window, k);
    var d := std[k] + 0.00000001;
    assert Column(ZScore(window, std), k) == Centred(c, Mean(c), d);
    CentredMeanZero(c, d);
  }

  /** Values less their own average average to zero, whatever the divisor. */
  lemma CentredMeanZero(c: seq<real>, d: real)
    requires c != [] && d != 0.0
    ensures Mean(Centred(c, Mean(c), d)) == 0.0
  {
    var n := |c| as real;
    var m := Mean(c);
    assert m == Sum(c) / n;
    assert n * m == Sum(c);
    SumCentred(c, m, d);
    assert Sum(Centred(c, m, d)) == 0.0;
  }

  /** Without a scaler, the heuristic as written sees only zero averages: it reports
      72 hours whatever the machine reads. */
  lemma MockIgnoresReadings(readings: seq<Sample>, std: seq<real>)
    requires readings != [] && Rows(readings) && |std| == 6 && forall k :: 0 <= k < 6 ==> std[k] >= 0.0
    ensures MockAsWritten(Window(readings, ZScore(readings, std))).rulHours == 72.0
  {
    var z := ZScore(readings, std);
    ZScoreMeansZero(readings, std, Temperature);
    ZScoreMeansZero(readings, std, Vibration);
    ZScoreMeansZero(readings, std, ToolWear);
    assert ColumnMeans(z)[Vibration] == 0.0 && ColumnMeans(z)[Temperature] == 0.0 && ColumnMeans(z)[ToolWear] == 0.0;
  }

  /** A hot, vibrating, worn machine: the heuristic on its readings gives 27 hours, as
      written it gives 72. */
  lemma HotMachine()
    ensures var hot := [[90.0, 0.9, 100.0, 1500.0, 50.0, 0.8]];
      Predict(NoRegressor, Window(hot, ZScore(hot, [0.0, 0.0, 0.0, 0.0, 0.0, 0.0]))).rulHours == 27.0
      && MockAsWritten(Window(hot, ZScore(hot, [0.0, 0.0, 0.0, 0.0, 0.0, 0.0]))).rulHours == 72.0
  {
    var hot: seq<Sample> := [[90.0, 0.9, 100.0, 1500.0, 50.0, 0.8]];
    assert Column(hot, Temperature) == [90.0] && Column(hot, Vibration) == [0.9] && Column(hot, ToolWear) == [0.8];
    MeanOfOne(90.0);
    MeanOfOne(0.9);
    MeanOfOne(0.8);
    MockIgnoresReadings(hot, [0.0, 0.0, 0.0, 0.0, 0.0, 0.0]);
  }
}
