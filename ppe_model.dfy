// The PPE agent's model wrapper: six inertial readings per sample fill a bounded
// window; each prediction's per-item compliance votes (helmet, vest, gloves) go
// into a bounded smoothing buffer, and the reported compliance is the strict
// majority of the buffered votes. The classifier and the variance of the window
// are outside the model: they are inputs.

module PpeModel {
  import opened PyValues

  /** One prediction's compliance vote for each item. */
  datatype Vote = Vote(helmet: bool, vest: bool, gloves: bool)

  datatype Item = Helmet | Vest | Gloves

  function VoteFor(v: Vote, item: Item): bool
  {
    match item
    case Helmet => v.helmet
    case Vest => v.vest
    case Gloves => v.gloves
  }

  /** `sum(1 for p in buffer if p[item])` */
  function Votes(buffer: seq<Vote>, item: Item): (n: nat)
    ensures n <= |buffer|
  {
    if buffer == [] then 0
    else Votes(buffer[..|buffer| - 1], item) + (if VoteFor(buffer[|buffer| - 1], item) then 1 else 0)
  }

  /** `_apply_smoothing`: an item is compliant when strictly more than half of the
      buffered votes say so; an empty buffer gives no compliance at all. */
  function Smoothed(buffer: seq<Vote>): Vote
  {
    if |buffer| == 0 then Vote(false, false, false)
    else
      var half := |buffer| as real / 2.0;
      Vote(Votes(buffer, Helmet) as real > half, Votes(buffer, Vest) as real > half,
           Votes(buffer, Gloves) as real > half)
  }

  /** `int(helmet) + int(vest) + int(gloves)` */
  function CompliantItems(v: Vote): nat
  {
    (if v.helmet then 1 else 0) + (if v.vest then 1 else 0) + (if v.gloves then 1 else 0)
  }

  /** A reading under its name or its short alias, else 0.0. */
  function Axis(raw: Dict, name: string, alias: string): Value
  {
    Get(raw, name, Get(raw, alias, Num(0.0)))
  }

  /** `_extract_features`: the first six entries of a 'sensors' list of at least six,
      else the six per-axis fields (under their long or short names, 0.0 when
      missing) through `float()`. None where a value is not numeric, which fails
      inside `preprocess` and is caught there. */
  function ExtractFeatures(raw: Dict): (f: Option<seq<real>>)
    ensures f.Some? ==> |f.value| == 6
  {
    if "sensors" in raw && raw["sensors"].Arr? && |raw["sensors"].items| >= 6 then
      Converted(raw["sensors"].items[..6], AsReal)
    else
      Converted([Axis(raw, "accel_x", "ax"), Axis(raw, "accel_y", "ay"), Axis(raw, "accel_z", "az"),
                 Axis(raw, "gyro_x", "gx"), Axis(raw, "gyro_y", "gy"), Axis(raw, "gyro_z", "gz")], PyFloat)
  }

  /** A classifier output read as per-item compliance probabilities: three or more
      outputs give one per item, two outputs give the second for all three, one
      output gives itself for all three, and no output gives 0.5. */
  function ItemProbabilities(outputs: seq<real>): (real, real, real)
  {
    if |outputs| >= 3 then (outputs[0], outputs[1], outputs[2])
    else if |outputs| == 2 then (outputs[1], outputs[1], outputs[1])
    else if |outputs| == 1 then (outputs[0], outputs[0], outputs[0])
    else (0.5, 0.5, 0.5)
  }

  /** Each item is compliant when its probability is above 0.5. */
  function ModelVote(outputs: seq<real>): Vote
  {
    var (h, v, g) := ItemProbabilities(outputs);
    Vote(h > 0.5, v > 0.5, g > 0.5)
  }

  /** The mock heuristic: a still wearer (low variance) is likely compliant; each item
      has its own bar. */
  function MockVote(variance: real): Vote
  {
    var p := 1.0 - Min(1.0, variance / 10.0);
    Vote(p > 0.6, p > 0.5, p > 0.7)
  }

  /** What inference gives for a window: no model (the mock heuristic runs on the
      window's mean variance), the classifier's outputs, or an exception. */
  datatype Inference = Mock(variance: real) | Outputs(probabilities: seq<real>) | Fails

  datatype PpePrediction = PpePrediction(
    helmetCompliant: bool, vestCompliant: bool, glovesCompliant: bool,
    overallCompliance: bool, complianceRate: real, confidence: real)

  const ErrorPrediction := PpePrediction(false, false, false, false, 0.0, 0.0)

  /** The prediction reported for a smoothed vote. */
  function Report(v: Vote, confidence: real): (p: PpePrediction)
    ensures p.overallCompliance <==> p.helmetCompliant && p.vestCompliant && p.glovesCompliant
    ensures p.complianceRate == CompliantItems(v) as real / 3.0 * 100.0
  {
    PpePrediction(v.helmet, v.vest, v.gloves, v.helmet && v.vest && v.gloves,
                  CompliantItems(v) as real / 3.0 * 100.0, confidence)
  }

  class PpeModel {
    const sequenceLength: nat
    const smoothingBufferSize: nat
    /** The recent feature vectors, oldest first. */
    var dataBuffer: seq<seq<real>>
    /** The recent compliance votes, oldest first. */
    var predictionBuffer: seq<Vote>

    predicate Valid()
      reads this
    {
      |dataBuffer| <= sequenceLength && |predictionBuffer| <= smoothingBufferSize
    }

    constructor (sequenceLength: nat, smoothingBufferSize: nat)
      ensures this.sequenceLength == sequenceLength && this.smoothingBufferSize == smoothingBufferSize
      ensures dataBuffer == [] && predictionBuffer == [] && Valid()
    {
      this.sequenceLength := sequenceLength;
      this.smoothingBufferSize := smoothingBufferSize;
      dataBuffer := [];
      predictionBuffer := [];
    }

    /** `preprocess`: the features join the bounded window, which is returned once it
        holds a full sequence. A reading that does not convert changes nothing. */
    method Preprocess(raw: Dict) returns (window: Option<seq<seq<real>>>)
      requires Valid()
      modifies this
      ensures Valid() && predictionBuffer == old(predictionBuffer)
      ensures ExtractFeatures(raw).None? ==> dataBuffer == old(dataBuffer) && window.None?
      ensures ExtractFeatures(raw).Some? ==>
        dataBuffer == Push(old(dataBuffer), ExtractFeatures(raw).value, sequenceLength)
      ensures window.Some? <==> ExtractFeatures(raw).Some? && |dataBuffer| >= sequenceLength
      ensures window.Some? ==> window.value == dataBuffer
    {
      var features := ExtractFeatures(raw);
      if features.None? {
        return None;
      }
      dataBuffer := Push(dataBuffer, features.value, sequenceLength);
      if |dataBuffer| < sequenceLength {
        return None;
      }
      window := Some(dataBuffer);
    }

    /** `predict` (and `_mock_predict` when no model is loaded): the new vote joins the
        smoothing buffer and the smoothed vote is reported. */
    method Predict(inference: Inference) returns (p: PpePrediction)
      requires Valid()
      modifies this
      ensures Valid() && dataBuffer == old(dataBuffer)
      ensures inference.Fails? ==> p == ErrorPrediction && predictionBuffer == old(predictionBuffer)
      ensures inference.Mock? ==>
        predictionBuffer == Push(old(predictionBuffer), MockVote(inference.variance), smoothingBufferSize)
        && p == Report(Smoothed(predictionBuffer), 0.70)
      ensures inference.Outputs? ==>
        predictionBuffer == Push(old(predictionBuffer), ModelVote(inference.probabilities), smoothingBufferSize)
        && p == Report(Smoothed(predictionBuffer),
                       if |predictionBuffer| >= smoothingBufferSize then 0.85 else 0.70)
    {
      match inference
      case Fails =>
        p := ErrorPrediction;
      case Mock(variance) =>
        predictionBuffer := Push(predictionBuffer, MockVote(variance), smoothingBufferSize);
        p := Report(Smoothed(predictionBuffer), 0.70);
      case Outputs(probabilities) =>
        predictionBuffer := Push(predictionBuffer, ModelVote(probabilities), smoothingBufferSize);
        var confidence := if |predictionBuffer| >= smoothingBufferSize then 0.85 else 0.70;
        p := Report(Smoothed(predictionBuffer), confidence);
    }

    /** `reset_buffer` */
    method ResetBuffer()
      modifies this
      ensures dataBuffer == [] && predictionBuffer == [] && Valid()
    {
      dataBuffer := [];
      predictionBuffer := [];
    }
  }

  // ---------------------------------------------------------------- properties

  /** An item is smoothed to compliant exactly when strictly more than half of the
      buffered votes are for it: a tie is not compliant. */
  lemma MajorityVote(buffer: seq<Vote>, item: Item)
    ensures VoteFor(Smoothed(buffer), item) <==> 2 * Votes(buffer, item) > |buffer|
  {
  }

  /** A unanimous buffer is reported as it voted. */
  lemma {:induction false} Unanimous(buffer: seq<Vote>, item: Item, vote: bool)
    requires buffer != [] && forall i :: 0 <= i < |buffer| ==> VoteFor(buffer[i], item) == vote
    ensures VoteFor(Smoothed(buffer), item) == vote
  {
    UnanimousVotes(buffer, item, vote);
  }

  lemma {:induction false} UnanimousVotes(buffer: seq<Vote>, item: Item, vote: bool)
    requires forall i :: 0 <= i < |buffer| ==> VoteFor(buffer[i], item) == vote
    ensures Votes(buffer, item) == if vote then |buffer| else 0
  {
    if buffer != [] {
      UnanimousVotes(buffer[..|buffer| - 1], item, vote);
    }
  }

  /** With a smoothing buffer of one the newest vote is reported as it is; with a
      buffer of zero nothing is ever kept, so nothing is ever compliant. */
  lemma SmoothingWidth(buffer: seq<Vote>, v: Vote)
    ensures Smoothed(Push(buffer, v, 1)) == v
    ensures Smoothed(Push(buffer, v, 0)) == Vote(false, false, false)
  {
    var r := Push(buffer, v, 1);
    assert r == [v];
    assert r[..0] == [];
  }

  /** The reported rate is one of 0, a third, two thirds or all, and it is 100 exactly
      when every item is compliant. */
  lemma RateValues(v: Vote, confidence: real)
    ensures var p := Report(v, confidence);
      (p.complianceRate == 0.0 || p.complianceRate == 100.0 / 3.0
       || p.complianceRate == 200.0 / 3.0 || p.complianceRate == 100.0)
      && (p.complianceRate == 100.0 <==> p.overallCompliance)
  {
  }

  /** How many outputs the classifier gives decides which one each item reads. */
  lemma OutputLayout(outputs: seq<real>)
    ensures |outputs| >= 3 ==> ModelVote(outputs) == Vote(outputs[0] > 0.5, outputs[1] > 0.5, outputs[2] > 0.5)
    ensures |outputs| == 2 ==> ModelVote(outputs) == Vote(outputs[1] > 0.5, outputs[1] > 0.5, outputs[1] > 0.5)
    ensures |outputs| == 1 ==> ModelVote(outputs) == Vote(outputs[0] > 0.5, outputs[0] > 0.5, outputs[0] > 0.5)
    ensures outputs == [] ==> ModelVote(outputs) == Vote(false, false, false)
  {
  }

  /** The per-axis fields default to 0.0. */
  lemma DefaultFeatures()
    ensures ExtractFeatures(map[]) == Some([0.0, 0.0, 0.0, 0.0, 0.0, 0.0])
  {
    var empty: Dict := map[];
    var zeros := [Num(0.0), Num(0.0), Num(0.0), Num(0.0), Num(0.0), Num(0.0)];
    assert [Axis(empty, "accel_x", "ax"), Axis(empty, "accel_y", "ay"), Axis(empty, "accel_z", "az"),
            Axis(empty, "gyro_x", "gx"), Axis(empty, "gyro_y", "gy"), Axis(empty, "gyro_z", "gz")] == zeros;
    ConvertedNums(zeros, [0.0, 0.0, 0.0, 0.0, 0.0, 0.0], PyFloat);
  }

  /** A 'sensors' list of at least six numbers wins over the per-axis fields. */
  lemma SensorsList(xs: seq<real>)
    requires |xs| >= 6
    ensures ExtractFeatures(map["sensors" := Arr(seq(|xs|, i requires 0 <= i < |xs| => Num(xs[i])))]) == Some(xs[..6])
  {
    var items := seq(|xs|, i requires 0 <= i < |xs| => Num(xs[i]));
    ConvertedNums(items[..6], xs[..6], AsReal);
  }
}
