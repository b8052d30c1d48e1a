// The hazard agent's model wrapper: one sample of six readings per message; a
// classifier's hazard probability, or a heuristic on temperature and gas when there is
// no classifier, becomes a hazard score, a safety score and a hazard type. The
// classifier is outside the model: its class probabilities are an input.

module SafetyModel {
  import opened PyValues

  /** Temperature, vibration, pressure, gas level, noise level and zone id, in that
      order. */
  type Sample = seq<real>

  const Temperature := 0
  const Gas := 3
  const Noise := 4

  /** A reading under its name or its alias, else the default. */
  function Reading(raw: Dict, name: string, alias: string, default: real): Value
  {
    Get(raw, name, Get(raw, alias, Num(default)))
  }

  /** `preprocess` (through `_extract_features`): the six readings, with the defaults
      20, 0.5, 100, 0, 60 and 0; None where `float()` raises. */
  function Preprocess(raw: Dict): (f: Option<Sample>)
    ensures f.Some? ==> |f.value| == 6
  {
    Converted([Reading(raw, "temperature", "Temperature_C", 20.0),
               Reading(raw, "vibration", "Vibration_Hz", 0.5),
               Reading(raw, "pressure", "Pressure_psi", 100.0),
               Reading(raw, "gas_level", "Gas_Level_ppm", 0.0),
               Reading(raw, "noise_level", "Noise_dB", 60.0),
               Reading(raw, "zone_id", "Zone_ID", 0.0)], PyFloat)
  }

  datatype HazardPrediction = HazardPrediction(hazardScore: real, hazardType: string, safetyScore: real, confidence: real)

  const ErrorPrediction := HazardPrediction(0.0, "NONE", 100.0, 0.0)

  /** The heuristic's hazard score: a third of the degrees above 70 plus an eightieth of
      the ppm above 20, clamped into [0, 1]. */
  function MockScore(temperature: real, gas: real): (h: real)
    ensures 0.0 <= h <= 1.0
  {
    Max(0.0, Min(1.0, (temperature - 70.0) / 30.0 + (gas - 20.0) / 80.0))
  }

  /** `_mock_predict`: above 0.7 the hazard is a fire risk when hot, else a gas leak. */
  function MockPredict(sample: Sample): HazardPrediction
    requires |sample| == 6
  {
    var h := MockScore(sample[Temperature], sample[Gas]);
    var kind := if h > 0.7 then (if sample[Temperature] > 80.0 then "FIRE_RISK" else "GAS_LEAK") else "NONE";
    HazardPrediction(h, kind, (1.0 - h) * 100.0, 0.70)
  }

  /** The classifier's hazard type: unknown up to 0.7; above, the first of fire risk
      (hot), gas leak (gassy), noise hazard (loud), else a general hazard. */
  function ClassifiedType(sample: Sample, hazardScore: real): string
    requires |sample| == 6
  {
    if hazardScore <= 0.7 then "UNKNOWN"
    else if sample[Temperature] > 80.0 then "FIRE_RISK"
    else if sample[Gas] > 50.0 then "GAS_LEAK"
    else if sample[Noise] > 90.0 then "NOISE_HAZARD"
    else "GENERAL_HAZARD"
  }

  /** What inference does for a sample: there is no classifier, the classifier gives
      its class probabilities, or it raises. */
  datatype Inference = NoClassifier | Classified(probabilities: seq<real>) | Fails

  /** `predict`: the hazard score is the second class's probability when there are two
      or more classes, else the first's; no probability at all raises, as does a failing
      classifier, and the error prediction is returned. */
  function Predict(inference: Inference, sample: Sample): (p: HazardPrediction)
    requires |sample| == 6
    ensures p.safetyScore == (1.0 - p.hazardScore) * 100.0
    ensures p.confidence == 0.0 <==> inference.Fails? || inference == Classified([])
    ensures inference.NoClassifier? ==> 0.0 <= p.hazardScore <= 1.0 && p.confidence == 0.70
    ensures inference.Classified? && inference.probabilities != [] ==> p.confidence == 0.85
  {
    match inference
    case Fails => ErrorPrediction
    case NoClassifier => MockPredict(sample)
    case Classified(ps) =>
      if ps == [] then ErrorPrediction
      else
        var h := if |ps| > 1 then ps[1] else ps[0];
        HazardPrediction(h, ClassifiedType(sample, h), (1.0 - h) * 100.0, 0.85)
  }

  // ---------------------------------------------------------------- properties

  /** The readings of an empty message are the six defaults. */
  lemma DefaultFeatures()
    ensures Preprocess(map[]) == Some([20.0, 0.5, 100.0, 0.0, 60.0, 0.0])
  {
    var empty: Dict := map[];
    var vs := [Num(20.0), Num(0.5), Num(100.0), Num(0.0), Num(60.0), Num(0.0)];
    assert [Reading(empty, "temperature", "Temperature_C", 20.0),
            Reading(empty, "vibration", "Vibration_Hz", 0.5),
            Reading(empty, "pressure", "Pressure_psi", 100.0),
            Reading(empty, "gas_level", "Gas_Level_ppm", 0.0),
            Reading(empty, "noise_level", "Noise_dB", 60.0),
            Reading(empty, "zone_id", "Zone_ID", 0.0)] == vs;
    ConvertedNums(vs, [20.0, 0.5, 100.0, 0.0, 60.0, 0.0], PyFloat);
  }

  /** The heuristic's scores stay in range: hazard in [0, 1], safety in [0, 100]; and a
      classifier whose probabilities are in [0, 1] gives the same ranges. */
  lemma ScoreRanges(inference: Inference, sample: Sample)
    requires |sample| == 6
    requires inference.Classified? ==> forall i :: 0 <= i < |inference.probabilities| ==>
      0.0 <= inference.probabilities[i] <= 1.0
    ensures var p := Predict(inference, sample);
      0.0 <= p.hazardScore <= 1.0 && 0.0 <= p.safetyScore <= 100.0
  {
  }

  /** A hotter or gassier reading never lowers the heuristic's hazard score. */
  lemma MockMonotone(t1: real, g1: real, t2: real, g2: real)
    requires t1 <= t2 && g1 <= g2
    ensures MockScore(t1, g1) <= MockScore(t2, g2)
  {
  }

  /** The heuristic reports a hazard type exactly when the score exceeds 0.7, and then
      it is a fire risk exactly when the temperature exceeds 80. */
  lemma MockTypes(sample: Sample)
    requires |sample| == 6
    ensures var p := MockPredict(sample);
      (p.hazardType == "NONE" <==> p.hazardScore <= 0.7)
      && (p.hazardType == "FIRE_RISK" <==> p.hazardScore > 0.7 && sample[Temperature] > 80.0)
      && (p.hazardType == "GAS_LEAK" <==> p.hazardScore > 0.7 && sample[Temperature] <= 80.0)
  {
  }

  /** At 100 degrees and 20 ppm the heuristic scores 1: a fire risk, safety 0. */
  lemma HotReading()
    ensures var p := MockPredict([100.0, 0.5, 100.0, 20.0, 60.0, 0.0]);
      p.hazardScore == 1.0 && p.hazardType == "FIRE_RISK" && p.safetyScore == 0.0
  {
  }

  /** The classifier's hazard types, in their order of precedence. */
  lemma ClassifiedLadder(sample: Sample, h: real)
    requires |sample| == 6
    ensures ClassifiedType(sample, h) == "UNKNOWN" <==> h <= 0.7
    ensures ClassifiedType(sample, h) == "FIRE_RISK" <==> h > 0.7 && sample[Temperature] > 80.0
    ensures ClassifiedType(sample, h) == "GAS_LEAK" <==>
      h > 0.7 && sample[Temperature] <= 80.0 && sample[Gas] > 50.0
    ensures ClassifiedType(sample, h) == "NOISE_HAZARD" <==>
      h > 0.7 && sample[Temperature] <= 80.0 && sample[Gas] <= 50.0 && sample[Noise] > 90.0
    ensures ClassifiedType(sample, h) == "GENERAL_HAZARD" <==>
      h > 0.7 && sample[Temperature] <= 80.0 && sample[Gas] <= 50.0 && sample[Noise] <= 90.0
  {
  }

  /** Which probability is the hazard score, by the number of classes. */
  lemma ProbabilityChoice(ps: seq<real>, sample: Sample)
    requires |sample| == 6
    ensures |ps| >= 2 ==> Predict(Classified(ps), sample).hazardScore == ps[1]
    ensures |ps| == 1 ==> Predict(Classified(ps), sample).hazardScore == ps[0]
    ensures ps == [] ==> Predict(Classified(ps), sample) == ErrorPrediction
  {
  }

  /** The default readings are safe: the heuristic scores 0, with no hazard type. */
  lemma DefaultReadingsSafe()
    ensures MockPredict([20.0, 0.5, 100.0, 0.0, 60.0, 0.0]) == HazardPrediction(0.0, "NONE", 100.0, 0.70)
  {
  }
}
