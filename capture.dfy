/**
 * What the capture screen hands to `classifyImage` and what the on-device
 * classifier gives back, with the platform types reduced to plain values.
 */
module Capture {
  import opened Wrappers

  /** A captured `UIImage`; `hasCIImage` is whether `CIImage(image:)` succeeds for it. */
  datatype Image = Image(id: nat, hasCIImage: bool)

  /** A `CLLocation`. */
  datatype Coordinate = Coordinate(latitude: real, longitude: real)

  /** A `Date`. */
  datatype Date = Date(timeIntervalSinceReferenceDate: real)

  /** A `VNClassificationObservation`. */
  datatype Observation = Observation(identifier: string, confidence: real)

  /**
   * Everything between choosing the model file and the request's completion
   * handler: `ClassifierFailed` stands for a model missing from the bundle, a
   * model that does not load, a request that throws and a completion with an
   * error; `Classified` holds the observations the request returned.
   */
  datatype ClassifierOutcome = ClassifierFailed | Classified(observations: seq<Observation>)

  /** What one tap on "Scan Test" ends in. */
  datatype ScreenOutcome<R> = NothingShown | ErrorAlert(message: string) | Presented(screen: R)

  /** Vision returns classification observations in decreasing confidence. */
  predicate SortedByConfidence(obs: seq<Observation>) {
    forall i, j :: 0 <= i < j < |obs| ==> obs[i].confidence >= obs[j].confidence
  }

  /**
   * `results.first?.identifier`: the label of the first observation, when
   * the request succeeded with at least one.
   */
  function TopLabel(outcome: ClassifierOutcome): (r: Option<string>)
    ensures r.Some? <==> outcome.Classified? && |outcome.observations| > 0
    ensures r.Some? ==> r.value == outcome.observations[0].identifier
    ensures r.Some? && SortedByConfidence(outcome.observations) ==>
      exists k :: 0 <= k < |outcome.observations| && outcome.observations[k].identifier == r.value &&
        forall j :: 0 <= j < |outcome.observations| ==> outcome.observations[k].confidence >= outcome.observations[j].confidence
  {
    match outcome
    case ClassifierFailed => None
    case Classified(obs) => if |obs| == 0 then None else Some(obs[0].identifier)
  }
}
