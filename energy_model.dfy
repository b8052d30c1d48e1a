// The energy agent's model wrapper: a bounded window of feature samples, a bounded
// consumption history whose mean is the baseline, and the scores derived from a
// consumption figure and that baseline (efficiency, anomaly score and flag). The
// forecasting network and the isolation forest are outside the model: what they
// return is an input.

module EnergyModel {
  import opened PyValues

  /** One feature sample. The hour of the clock is kept as it is: its sine/cosine
      encoding is not modelled. */
  datatype EnergyFeatures = EnergyFeatures(power: real, hour: int, temperature: real, production: real)

  const DefaultBaseline := 100.0
  /** 30 days of one-minute samples. */
  const HistoryLength := 43200

  /** The production feature: production over 200, clamped into [0, 1]. */
  function NormalisedProduction(production: real): (r: real)
    ensures 0.0 <= r <= 1.0
    ensures 0.0 <= production <= 200.0 ==> r * 200.0 == production
  {
    Min(1.0, Max(0.0, production / 200.0))
  }

  /** `_extract_features`: power, temperature and production under their names or
      aliases (defaults 100, 20 and 100); None where `float()` raises, which
      `preprocess` catches. */
  function ExtractFeatures(raw: Dict, hour: int): (f: Option<EnergyFeatures>)
    ensures f.Some? ==> f.value.hour == hour && 0.0 <= f.value.production <= 1.0
  {
    var power := PyFloat(Get(raw, "current_load", Get(raw, "Power_Consumption_kW", Get(raw, "power", Num(100.0)))));
    var temperature := PyFloat(Get(raw, "temperature", Get(raw, "Temperature_C", Num(20.0))));
    var production := PyFloat(Get(raw, "production_load", Get(raw, "Production_Speed_units_per_hr", Num(100.0))));
    if power.None? || temperature.None? || production.None? then None
    else Some(EnergyFeatures(power.value, hour, temperature.value, NormalisedProduction(production.value)))
  }

  function Powers(window: seq<EnergyFeatures>): (ps: seq<real>)
    ensures |ps| == |window| && forall i :: 0 <= i < |window| ==> ps[i] == window[i].power
  {
    seq(|window|, i requires 0 <= i < |window| => window[i].power)
  }

  /** The efficiency score of a consumption-to-baseline ratio, piecewise linear:
      100 up to 0.8, falling to 80 at 1.0, to 60 at 1.2, and to 0 at 1.8 and beyond. */
  function EfficiencyOfRatio(ratio: real): real
  {
    if ratio <= 0.8 then 100.0
    else if ratio <= 1.0 then 80.0 + (1.0 - ratio) * 100.0
    else if ratio <= 1.2 then 60.0 + (1.2 - ratio) * 100.0
    else Max(0.0, 60.0 - (ratio - 1.2) * 100.0)
  }

  /** `_calculate_efficiency`: 50 for a zero baseline, else the score of the ratio. */
  function Efficiency(consumption: real, baseline: real): real
  {
    if baseline == 0.0 then 50.0 else EfficiencyOfRatio(consumption / baseline)
  }

  /** The heuristic anomaly detector: the relative deviation from the baseline, doubled
      and capped at 1, is the score; more than 30% deviation is an anomaly. The
      baseline is a numpy float, so a zero baseline divides to infinity (any non-zero
      consumption: score 1, anomaly) or to NaN (zero consumption: `min` keeps 1.0 and
      the comparison is false). */
  function HeuristicAnomaly(consumption: real, baseline: real): (real, bool)
  {
    if baseline == 0.0 then (1.0, consumption != 0.0)
    else
      var deviation := Abs(consumption - baseline) / baseline;
      (Min(1.0, deviation * 2.0), deviation > 0.3)
  }

  /** The isolation forest's decision value mapped from [-0.5, 0.5] onto [0, 1] and
      clamped; more than 0.6 is an anomaly. */
  function ForestAnomaly(decision: real): (real, bool)
  {
    var score := Max(0.0, Min(1.0, (decision - -0.5) / (0.5 - -0.5)));
    (score, score > 0.6)
  }

  /** What the isolation forest does for a window: there is none, it gives a decision
      value, or it raises (logged; the heuristic is used). */
  datatype Forest = NoForest | ForestDecision(decision: real) | ForestFails

  /** `_detect_anomaly` */
  function DetectAnomaly(forest: Forest, consumption: real, baseline: real): (real, bool)
  {
    match forest
    case ForestDecision(d) => ForestAnomaly(d)
    case _ => HeuristicAnomaly(consumption, baseline)
  }

  /** What the forecasting network does for a window: there is none (the mock runs),
      it returns its outputs, or it raises. */
  datatype Forecast = NoForecaster | Forecasted(outputs: seq<real>) | ForecastFails

  datatype EnergyPrediction = EnergyPrediction(
    consumptionKwh: real, efficiencyScore: real, anomalyScore: real, isAnomaly: bool,
    baselineConsumption: real, confidence: real)

  class EnergyModel {
    const sequenceLength: nat
    /** The recent feature samples, oldest first. */
    var dataBuffer: seq<EnergyFeatures>
    /** The recent power readings, oldest first. */
    var consumptionHistory: seq<real>
    var baselineConsumption: real

    /** Both buffers stay within their bounds, and the baseline is the mean of the
        history once there is one. */
    predicate Valid()
      reads this
    {
      |dataBuffer| <= sequenceLength && |consumptionHistory| <= HistoryLength
      && (consumptionHistory == [] ==> baselineConsumption == DefaultBaseline)
      && (consumptionHistory != [] ==> baselineConsumption == Mean(consumptionHistory))
    }

    constructor (sequenceLength: nat)
      ensures this.sequenceLength == sequenceLength
      ensures dataBuffer == [] && consumptionHistory == [] && baselineConsumption == DefaultBaseline
      ensures Valid()
    {
      this.sequenceLength := sequenceLength;
      dataBuffer := [];
      consumptionHistory := [];
      baselineConsumption := DefaultBaseline;
    }

    /** `preprocess`: the sample joins the window and its power the history, and the
        baseline becomes the history's mean; the window is returned once full. A
        reading that does not convert changes nothing. */
    method Preprocess(raw: Dict, hour: int) returns (window: Option<seq<EnergyFeatures>>)
      requires Valid()
      modifies this
      ensures Valid()
      ensures ExtractFeatures(raw, hour).None? ==>
        window.None? && dataBuffer == old(dataBuffer) && consumptionHistory == old(consumptionHistory)
        && baselineConsumption == old(baselineConsumption)
      ensures ExtractFeatures(raw, hour).Some? ==>
        var f := ExtractFeatures(raw, hour).value;
        dataBuffer == Push(old(dataBuffer), f, sequenceLength)
        && consumptionHistory == Push(old(consumptionHistory), f.power, HistoryLength)
        && baselineConsumption == Mean(consumptionHistory)
      ensures window.Some? <==> ExtractFeatures(raw, hour).Some? && |dataBuffer| >= sequenceLength
      ensures window.Some? ==> window.value == dataBuffer
    {
      var features := ExtractFeatures(raw, hour);
      if features.None? {
        return None;
      }
      dataBuffer := Push(dataBuffer, features.value, sequenceLength);
      consumptionHistory := Push(consumptionHistory, features.value.power, HistoryLength);
      baselineConsumption := Mean(consumptionHistory);
      if |dataBuffer| < sequenceLength {
        return None;
      }
      window := Some(dataBuffer);
    }

    /** `predict` (with `_mock_predict` when there is no network): the consumption is the
        network's first output (100 when it gives none) or, in the mock, the window's
        mean power; it is scored against the current baseline, by the isolation forest
        when one is loaded in either case. */
    method Predict(window: seq<EnergyFeatures>, forecast: Forecast, forest: Forest)
      returns (p: EnergyPrediction)
      requires forecast.NoForecaster? ==> window != []
      ensures forecast.ForecastFails? ==>
        p == EnergyPrediction(100.0, 50.0, 0.5, false, baselineConsumption, 0.0)
      ensures !forecast.ForecastFails? ==>
        var c := if forecast.NoForecaster? then Mean(Powers(window))
                 else if forecast.outputs == [] then 100.0 else forecast.outputs[0];
        p.consumptionKwh == c
        && p.efficiencyScore == Efficiency(c, baselineConsumption)
        && (p.anomalyScore, p.isAnomaly) == DetectAnomaly(forest, c, baselineConsumption)
        && p.baselineConsumption == baselineConsumption
        && p.confidence == (if forecast.Forecasted? && |consumptionHistory| > 1000 then 0.85 else 0.70)
    {
      match forecast
      case ForecastFails =>
        p := EnergyPrediction(100.0, 50.0, 0.5, false, baselineConsumption, 0.0);
      case NoForecaster =>
        var c := Mean(Powers(window));
        var (score, anomalous) := DetectAnomaly(forest, c, baselineConsumption);
        p := EnergyPrediction(c, Efficiency(c, baselineConsumption), score, anomalous, baselineConsumption, 0.70);
      case Forecasted(outputs) =>
        var c := if |outputs| > 0 then outputs[0] else 100.0;
        var (score, anomalous) := DetectAnomaly(forest, c, baselineConsumption);
        var confidence := if |consumptionHistory| > 1000 then 0.85 else 0.70;
        p := EnergyPrediction(c, Efficiency(c, baselineConsumption), score, anomalous, baselineConsumption, confidence);
    }

    /** `reset_buffer`: only the window is cleared; history and baseline stay. */
    method ResetBuffer()
      requires Valid()
      modifies this
      ensures dataBuffer == [] && consumptionHistory == old(consumptionHistory)
      ensures baselineConsumption == old(baselineConsumption) && Valid()
    {
      dataBuffer := [];
    }
  }

  // ---------------------------------------------------------------- properties

  /** The heuristic's consumption, the window's average power, lies between the lowest
      and the highest power in the window. */
  lemma MockConsumptionBounds(window: seq<EnergyFeatures>, lo: real, hi: real)
    requires window != []
    requires forall i :: 0 <= i < |window| ==> lo <= window[i].power <= hi
    ensures lo <= Mean(Powers(window)) <= hi
  {
    MeanBounds(Powers(window), lo, hi);
  }

  /** The efficiency score always lies in [0, 100]. */
  lemma EfficiencyRange(consumption: real, baseline: real)
    ensures 0.0 <= Efficiency(consumption, baseline) <= 100.0
  {
  }

  /** A higher ratio never scores higher. */
  lemma EfficiencyMonotone(r1: real, r2: real)
    requires r1 <= r2
    ensures EfficiencyOfRatio(r2) <= EfficiencyOfRatio(r1)
  {
  }

  /** The score is continuous: it moves by at most 100 per unit of ratio, so the pieces
      meet at 0.8, 1.0 and 1.2. */
  lemma EfficiencyContinuous(r1: real, r2: real)
    requires r1 <= r2
    ensures EfficiencyOfRatio(r1) - EfficiencyOfRatio(r2) <= (r2 - r1) * 100.0
  {
  }

  /** With a non-zero baseline both detectors flag an anomaly exactly when the score
      exceeds 0.6; with a zero baseline and zero consumption the heuristic scores 1
      without flagging. */
  lemma AnomalyMeansScoreAboveSixTenths(forest: Forest, consumption: real, baseline: real)
    requires baseline != 0.0
    ensures var (score, anomalous) := DetectAnomaly(forest, consumption, baseline);
      anomalous <==> score > 0.6
    ensures HeuristicAnomaly(0.0, 0.0) == (1.0, false)
  {
  }

  /** Both detectors' scores are at most 1; the forest's are also at least 0. */
  lemma AnomalyScoreBounds(forest: Forest, consumption: real, baseline: real)
    ensures DetectAnomaly(forest, consumption, baseline).0 <= 1.0
    ensures forest.ForestDecision? ==> 0.0 <= DetectAnomaly(forest, consumption, baseline).0
  {
  }

  /** Consumption at the baseline is not anomalous and scores 80. */
  lemma AtBaseline(baseline: real)
    requires baseline != 0.0
    ensures HeuristicAnomaly(baseline, baseline) == (0.0, false)
    ensures Efficiency(baseline, baseline) == 80.0
  {
    assert baseline / baseline == 1.0;
  }

  /** A higher forest decision value never gives a lower anomaly score. */
  lemma ForestScoreMonotone(d1: real, d2: real)
    requires d1 <= d2
    ensures ForestAnomaly(d1).0 <= ForestAnomaly(d2).0
  {
  }

  /** The extracted sample of an empty reading: the defaults 100 kW, 20 C and half of
      full production. */
  lemma DefaultFeatures(hour: int)
    ensures ExtractFeatures(map[], hour) == Some(EnergyFeatures(100.0, hour, 20.0, 0.5))
  {
  }
}
