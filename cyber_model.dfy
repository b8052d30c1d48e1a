// The cyber agent's model wrapper: network readings become four features scaled
// into [0, 1], a bounded buffer keeps the recent ones, and each prediction updates
// a counter of consecutive anomalies that, with the anomaly score, sets the threat
// level. The Isolation Forest itself is outside the model: its decision value and
// label are inputs.

module CyberModel {
  import opened PyValues

  datatype Features = Features(latency: real, packetLoss: real, throughput: real, connections: real)

  /** A reading under its name or its dataset alias, else the default. */
  function Reading(raw: Dict, name: string, alias: string, default: real): Value
  {
    Get(raw, name, Get(raw, alias, Num(default)))
  }

  /** `min(1.0, x / scale)` */
  function Scaled(x: real, scale: real): real
    requires scale > 0.0
  {
    Min(1.0, x / scale)
  }

  /** `_extract_features`: None where `float()` raises on a reading, which
      `preprocess` catches. */
  function ExtractFeatures(raw: Dict): (f: Option<Features>)
    ensures f.Some? ==> f.value.latency <= 1.0 && f.value.packetLoss <= 1.0
                        && f.value.throughput <= 1.0 && f.value.connections <= 1.0
  {
    var latency := PyFloat(Reading(raw, "latency", "Network_Latency_ms", 5.0));
    var loss := PyFloat(Reading(raw, "packet_loss", "Packet_Loss_%", 0.0));
    var throughput := PyFloat(Reading(raw, "throughput", "Throughput_Mbps", 100.0));
    var connections := PyFloat(Reading(raw, "connection_count", "Connections", 10.0));
    if latency.None? || loss.None? || throughput.None? || connections.None? then None
    else Some(Features(Scaled(latency.value, 100.0), Scaled(loss.value, 100.0),
                       Scaled(throughput.value, 1000.0), Scaled(connections.value, 1000.0)))
  }

  /** `_determine_threat_level` */
  function ThreatLevel(score: real, consecutive: int): string
  {
    if consecutive >= 5 || score > 0.9 then "CRITICAL"
    else if consecutive >= 3 || score > 0.7 then "HIGH"
    else if consecutive >= 1 || score > 0.5 then "MEDIUM"
    else "LOW"
  }

  /** The ordering of threat labels, LOW lowest. */
  function ThreatRank(level: string): int
  {
    if level == "CRITICAL" then 3 else if level == "HIGH" then 2 else if level == "MEDIUM" then 1 else 0
  }

  /** The Isolation Forest's decision value, normalised so that higher means more
      anomalous: `min(1, |s|/0.5)` for an anomaly, `max(0, (0.5 + s)/0.5)` otherwise. */
  function NormalisedScore(decision: real, anomalous: bool): real
  {
    if anomalous then Min(1.0, (if decision < 0.0 then -decision else decision) / 0.5)
    else Max(0.0, (0.5 + decision) / 0.5)
  }

  /** The consecutive-anomaly counter after one sample. */
  function NextCount(count: nat, anomalous: bool): nat
  {
    if anomalous then count + 1 else 0
  }

  /** What inference gives for a sample: no model loaded (the mock heuristic runs),
      the forest's decision value and label (-1 for an anomaly), or an exception. */
  datatype Inference = Mock | Scored(decision: real, forestLabel: int) | Fails

  datatype CyberPrediction = CyberPrediction(
    anomalyScore: real, isAnomaly: bool, threatLevel: string, consecutiveAnomalies: nat, confidence: real)

  /** The prediction returned when inference raises. */
  const ErrorPrediction := CyberPrediction(0.5, false, "LOW", 0, 0.0)

  class CyberModel {
    const sequenceLength: nat
    /** The recent feature vectors, oldest first. */
    var dataBuffer: seq<Features>
    var consecutiveAnomalies: nat

    predicate Valid()
      reads this
    {
      |dataBuffer| <= sequenceLength
    }

    constructor (sequenceLength: nat)
      ensures this.sequenceLength == sequenceLength
      ensures dataBuffer == [] && consecutiveAnomalies == 0 && Valid()
    {
      this.sequenceLength := sequenceLength;
      dataBuffer := [];
      consecutiveAnomalies := 0;
    }

    /** `preprocess`: the features of a reading, appended to the bounded buffer; a
        reading that does not convert leaves the buffer as it was. */
    method Preprocess(raw: Dict) returns (features: Option<Features>)
      requires Valid()
      modifies this
      ensures Valid()
      ensures features == ExtractFeatures(raw)
      ensures features.Some? ==> dataBuffer == Push(old(dataBuffer), features.value, sequenceLength)
      ensures features.None? ==> dataBuffer == old(dataBuffer)
      ensures consecutiveAnomalies == old(consecutiveAnomalies)
    {
      features := ExtractFeatures(raw);
      if features.Some? {
        dataBuffer := Push(dataBuffer, features.value, sequenceLength);
      }
    }

    /** `predict` (and `_mock_predict` when no model is loaded). */
    method Predict(features: Features, inference: Inference) returns (p: CyberPrediction)
      requires Valid()
      modifies this
      ensures Valid() && dataBuffer == old(dataBuffer)
      ensures inference.Fails? ==> p == ErrorPrediction && consecutiveAnomalies == old(consecutiveAnomalies)
      ensures !inference.Fails? ==>
        consecutiveAnomalies == NextCount(old(consecutiveAnomalies), p.isAnomaly)
        && p.consecutiveAnomalies == consecutiveAnomalies
        && p.threatLevel == ThreatLevel(p.anomalyScore, consecutiveAnomalies)
      ensures inference.Mock? ==>
        p.isAnomaly == (features.latency > 0.5) && p.anomalyScore == features.latency && p.confidence == 0.70
      ensures inference.Scored? ==>
        p.isAnomaly == (inference.forestLabel == -1)
        && p.anomalyScore == NormalisedScore(inference.decision, p.isAnomaly)
        && p.confidence == (if |dataBuffer| > 5 then 0.85 else 0.70)
    {
      match inference
      case Fails =>
        p := ErrorPrediction;
      case Mock =>
        var anomalous := features.latency > 0.5;
        consecutiveAnomalies := NextCount(consecutiveAnomalies, anomalous);
        p := CyberPrediction(features.latency, anomalous, ThreatLevel(features.latency, consecutiveAnomalies),
                             consecutiveAnomalies, 0.70);
      case Scored(decision, forestLabel) =>
        var anomalous := forestLabel == -1;
        var score := NormalisedScore(decision, anomalous);
        consecutiveAnomalies := NextCount(consecutiveAnomalies, anomalous);
        var confidence := if |dataBuffer| > 5 then 0.85 else 0.70;
        p := CyberPrediction(score, anomalous, ThreatLevel(score, consecutiveAnomalies),
                             consecutiveAnomalies, confidence);
    }

    /** `reset_consecutive` */
    method ResetConsecutive()
      modifies this
      ensures consecutiveAnomalies == 0 && dataBuffer == old(dataBuffer)
    {
      consecutiveAnomalies := 0;
    }
  }

  // ---------------------------------------------------------------- properties

  /** Each feature is its reading over its scale, capped at 1. */
  lemma FeatureScaling(raw: Dict, latency: real, loss: real, throughput: real, connections: real)
    requires PyFloat(Reading(raw, "latency", "Network_Latency_ms", 5.0)) == Some(latency)
    requires PyFloat(Reading(raw, "packet_loss", "Packet_Loss_%", 0.0)) == Some(loss)
    requires PyFloat(Reading(raw, "throughput", "Throughput_Mbps", 100.0)) == Some(throughput)
    requires PyFloat(Reading(raw, "connection_count", "Connections", 10.0)) == Some(connections)
    ensures var f := ExtractFeatures(raw).value;
      (latency <= 100.0 ==> f.latency == latency / 100.0) && (latency >= 100.0 ==> f.latency == 1.0)
      && (loss <= 100.0 ==> f.packetLoss == loss / 100.0) && (loss >= 100.0 ==> f.packetLoss == 1.0)
      && (throughput <= 1000.0 ==> f.throughput == throughput / 1000.0)
      && (throughput >= 1000.0 ==> f.throughput == 1.0)
      && (connections <= 1000.0 ==> f.connections == connections / 1000.0)
      && (connections >= 1000.0 ==> f.connections == 1.0)
  {
  }

  /** The defaults of a reading with no fields: 5 ms latency, no loss, 100 Mbps and ten
      connections. */
  lemma DefaultFeatures()
    ensures ExtractFeatures(map[]) == Some(Features(0.05, 0.0, 0.1, 0.01))
  {
  }

  /** The threat ladder: each label exactly under its condition. */
  lemma ThreatLadder(score: real, consecutive: int)
    ensures ThreatLevel(score, consecutive) == "CRITICAL" <==> consecutive >= 5 || score > 0.9
    ensures ThreatLevel(score, consecutive) == "HIGH" <==>
      !(consecutive >= 5 || score > 0.9) && (consecutive >= 3 || score > 0.7)
    ensures ThreatLevel(score, consecutive) == "MEDIUM" <==>
      !(consecutive >= 3 || score > 0.7) && (consecutive >= 1 || score > 0.5)
    ensures ThreatLevel(score, consecutive) == "LOW" <==> consecutive < 1 && score <= 0.5
  {
  }

  /** A higher score or a longer run of anomalies never lowers the threat. */
  lemma ThreatMonotone(s1: real, s2: real, c1: int, c2: int)
    requires s1 <= s2 && c1 <= c2
    ensures ThreatRank(ThreatLevel(s1, c1)) <= ThreatRank(ThreatLevel(s2, c2))
  {
  }

  /** The normalised score of an anomaly lies in [0, 1]; that of a sample the forest
      calls normal is never negative, but reaches 1 at a decision value of 0 and
      exceeds 0.9, hence a CRITICAL threat, from a decision value of 0 upwards. */
  lemma ScoreRange(decision: real)
    ensures 0.0 <= NormalisedScore(decision, true) <= 1.0
    ensures NormalisedScore(decision, false) >= 0.0
    ensures decision >= 0.0 ==>
      NormalisedScore(decision, false) >= 1.0 && ThreatLevel(NormalisedScore(decision, false), 0) == "CRITICAL"
  {
  }

  /** Five anomalies in a row make the threat CRITICAL whatever the scores. */
  lemma RunOfFive(count: nat, score: real)
    requires count >= 4
    ensures ThreatLevel(score, NextCount(count, true)) == "CRITICAL"
  {
  }
}
