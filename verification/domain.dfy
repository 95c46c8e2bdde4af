/** The core business types: what one vendor reports and what the caller gets back. */
module Domain {
  datatype Option<+T> = None | Some(value: T)

  const APPROVE := "APPROVE"
  const DECLINE := "DECLINE"
  const MANUAL_REVIEW := "MANUAL_REVIEW"

  /** What a single vendor reports. Scores, confidences and weights are exact reals. */
  datatype RiskData = RiskData(source: string, score: real, confidence: real, weight: real)

  datatype ScoreResult = ScoreResult(score: real, decision: string, signalsUsed: seq<string>, logicVersion: string)
}
