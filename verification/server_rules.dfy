/**
 * Post-processing shared by the scoring servers: clamping, the
 * block / review / allow ladder, the prediction label and the errors a
 * request can end in.
 */
module ServerRules {

  function Max(a: real, b: real): real {
    if a >= b then a else b
  }

  function Min(a: real, b: real): real {
    if a <= b then a else b
  }

  /** `min(max(x, lo), hi)`. */
  function Clamp(x: real, lo: real, hi: real): real {
    Min(Max(x, lo), hi)
  }

  /** For a non-empty range the clamped value lies in it, and values already in range are unchanged. */
  lemma ClampInRange(x: real, lo: real, hi: real)
    requires lo <= hi
    ensures lo <= Clamp(x, lo, hi) <= hi
    ensures lo <= x <= hi ==> Clamp(x, lo, hi) == x
    ensures x < lo ==> Clamp(x, lo, hi) == lo
    ensures x > hi ==> Clamp(x, lo, hi) == hi
  {
  }

  /** What the server tells the caller to do with a transaction. */
  datatype Action = Allow | Review | Block

  /** The ladder: at least 80 blocks, at least 60 asks for review, anything lower is allowed. */
  function ActionFor(risk: real): Action {
    if risk >= 80.0 then Block
    else if risk >= 60.0 then Review
    else Allow
  }

  function Severity(a: Action): nat {
    match a
    case Allow => 0
    case Review => 1
    case Block => 2
  }

  /** A higher risk never gets a milder action. */
  lemma ActionMonotone(a: real, b: real)
    requires a <= b
    ensures Severity(ActionFor(a)) <= Severity(ActionFor(b))
  {
  }

  /** The ladder's three rungs, stated as ranges. */
  lemma ActionRanges(risk: real)
    ensures ActionFor(risk) == Block <==> 80.0 <= risk
    ensures ActionFor(risk) == Review <==> 60.0 <= risk < 80.0
    ensures ActionFor(risk) == Allow <==> risk < 60.0
  {
  }

  /** The `prediction` string of a response. */
  datatype Label = Anomaly | Normal

  /** The model's `-1` outlier marker is an anomaly; every other prediction is normal. */
  function LabelFor(prediction: int): Label {
    if prediction == -1 then Anomaly else Normal
  }

  /** Failures that end a request with status 500 in the Flask apps. */
  datatype ServerError = MissingKey(key: string) | DivisionByZero | Raised(message: string)
}
