/** How the page turns the settlement of its one inference request into the record
    the result panel shows. */
module Inference {
  import opened Wrappers

  /** How the request settled, as far as the page can observe it.
      - Ok: the response was 2xx and its JSON body carried `predicted_class` and
        `confidence_score`; the score, which the backend rounds to four decimals,
        is given as integer basis points (score * 10000).
      - NotOk: the response was not 2xx and its JSON body was parsed; `error` is
        the body's `error` field when it has one.
      - Threw: `fetch` rejected, the body was not JSON, or the body was JSON `null`
        (reading a field of it throws). */
  datatype Outcome =
    | Ok(predictedClass: int, scoreBp: int)
    | NotOk(error: Option<string>)
    | Threw

  /** The record held in the page's `result` state. */
  datatype AnalysisResult = AnalysisResult(hasTumor: bool, confidence: int, message: string)

  const TumorMessage: string :=
    "Potential brain tumor detected. Please consult with a medical professional for further evaluation."
  const NoTumorMessage: string := "No brain tumor detected in the MRI scan."
  const AnalysisFailedMessage: string := "Analysis failed."
  const NetworkErrorMessage: string := "Network error. Please try again."

  /** The server's class label for "tumor detected". */
  const PositiveClass: int := 1

  /** The score the server sent, as the exact real number the basis points stand for. */
  function ScoreOf(scoreBp: int): real
  {
    scoreBp as real / 10000.0
  }

  /** JavaScript's `Math.round` on an exact real: the nearest integer, halves going up. */
  function MathRound(x: real): (r: int)
    ensures r as real <= x + 0.5 < r as real + 1.0
  {
    (x + 0.5).Floor
  }

  /** `Math.round(confidence_score * 100)` in integer arithmetic on basis points. */
  function RoundPercent(scoreBp: int): (r: int)
    ensures 100 * r <= scoreBp + 50 < 100 * r + 100
    ensures 0 <= scoreBp <= 10000 ==> 0 <= r <= 100
  {
    (scoreBp + 50) / 100
  }

  /** The integer rounding agrees with `Math.round` applied to the exact score times 100. */
  lemma RoundPercentIsMathRound(scoreBp: int)
    ensures RoundPercent(scoreBp) == MathRound(ScoreOf(scoreBp) * 100.0)
  {
  }

  /** The body of `analyzeImage` from the `fetch` on: the one record each settlement yields. */
  function Normalize(outcome: Outcome): (r: AnalysisResult)
    // a tumor is reported exactly when the server answered with the positive class
    ensures r.hasTumor <==> outcome.Ok? && outcome.predictedClass == PositiveClass
    // on success the confidence is the rounded percentage, within [0, 100] for a score in [0, 1]
    ensures outcome.Ok? ==> r.confidence == MathRound(ScoreOf(outcome.scoreBp) * 100.0)
    ensures outcome.Ok? && 0 <= outcome.scoreBp <= 10000 ==> 0 <= r.confidence <= 100
    // on success the message is one of the two fixed templates, chosen by the class
    ensures outcome.Ok? ==> (r.message == TumorMessage <==> r.hasTumor)
    ensures outcome.Ok? ==> (r.message == NoTumorMessage <==> !r.hasTumor)
    // every failure reports no tumor with zero confidence
    ensures !outcome.Ok? ==> !r.hasTumor && r.confidence == 0
    // a server failure passes on a non-empty error text, and otherwise says the analysis failed
    ensures outcome.NotOk? && outcome.error.Some? && outcome.error.value != "" ==>
              r.message == outcome.error.value
    ensures outcome.NotOk? && (outcome.error.None? || outcome.error.value == "") ==>
              r.message == AnalysisFailedMessage
    // a thrown exception always gives the network-error text
    ensures outcome.Threw? ==> r.message == NetworkErrorMessage
  {
    match outcome
    case Ok(predictedClass, scoreBp) =>
      RoundPercentIsMathRound(scoreBp);
      AnalysisResult(
        predictedClass == PositiveClass,
        RoundPercent(scoreBp),
        if predictedClass == PositiveClass then TumorMessage else NoTumorMessage)
    case NotOk(error) =>
      // `data.error || "Analysis failed."`: a missing or empty error text is falsy
      var message := if error.Some? && error.value != "" then error.value else AnalysisFailedMessage;
      AnalysisResult(false, 0, message)
    case Threw =>
      AnalysisResult(false, 0, NetworkErrorMessage)
  }
}
