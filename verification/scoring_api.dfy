/**
 * The scoring endpoint `/api/analyze-transaction` of `ml_api/app.py`: missing
 * inputs are defaulted, three features are derived (a clamped z-score, the
 * hours since the last transaction and a guarded transactions-per-day rate),
 * and the model's decision value becomes a clamped 0-100 risk with an action.
 * The scaler and the isolation forest are opaque: their outputs are inputs here.
 */
module ScoringApi {
  import opened Wrappers
  import opened ServerRules

  /** The request body; `None` is a key that is absent. */
  datatype Request = Request(
    amount: Option<real>,
    userAvg: Option<real>,
    userStd: Option<real>,
    hoursSinceLast: Option<real>,
    totalTxSoFar: Option<real>,
    daysActive: Option<real>)

  /** The inputs after `data.get(key, default)`. */
  datatype Inputs = Inputs(amount: real, userAvg: real, userStd: real, hoursSinceLast: real, totalTxSoFar: real, daysActive: real)

  /**
   * Defaults: amount 0, user average = amount, user deviation
   * max(0.3 * average, 1), 24 hours, 1 transaction, 1 day. Supplied values
   * are kept as they are.
   */
  function WithDefaults(req: Request): (inp: Inputs)
    ensures req.amount.None? ==> inp.amount == 0.0
    ensures req.userAvg.None? ==> inp.userAvg == inp.amount
    ensures req.userStd.None? ==> inp.userStd == Max(inp.userAvg * 0.3, 1.0)
    ensures req.userStd.None? ==> inp.userStd >= 1.0 && inp.userStd >= 0.3 * inp.userAvg
    ensures req.hoursSinceLast.None? ==> inp.hoursSinceLast == 24.0
    ensures req.totalTxSoFar.None? ==> inp.totalTxSoFar == 1.0
    ensures req.daysActive.None? ==> inp.daysActive == 1.0
    ensures req.amount.Some? ==> inp.amount == req.amount.value
    ensures req.userAvg.Some? ==> inp.userAvg == req.userAvg.value
    ensures req.userStd.Some? ==> inp.userStd == req.userStd.value
    ensures req.hoursSinceLast.Some? ==> inp.hoursSinceLast == req.hoursSinceLast.value
    ensures req.totalTxSoFar.Some? ==> inp.totalTxSoFar == req.totalTxSoFar.value
    ensures req.daysActive.Some? ==> inp.daysActive == req.daysActive.value
  {
    var amount := req.amount.GetOr(0.0);
    var userAvg := req.userAvg.GetOr(amount);
    var userStd := req.userStd.GetOr(Max(userAvg * 0.3, 1.0));
    Inputs(amount, userAvg, userStd, req.hoursSinceLast.GetOr(24.0), req.totalTxSoFar.GetOr(1.0), req.daysActive.GetOr(1.0))
  }

  datatype Features = Features(zScore: real, hoursSinceLast: real, txPerDay: real)

  /**
   * The three model features. The z-score divides by the user deviation
   * unguarded, so a supplied deviation of 0 fails; it is then clamped to
   * [-5, 5]. The rate divides by max(days active, 1).
   */
  function ExtractFeatures(inp: Inputs): (r: Result<Features, ServerError>)
    ensures r.Failure? <==> inp.userStd == 0.0
    ensures r.Success? ==> -5.0 <= r.value.zScore <= 5.0
    ensures r.Success? ==> var raw := (inp.amount - inp.userAvg) / inp.userStd;
      && (-5.0 <= raw <= 5.0 ==> r.value.zScore == raw)
      && (raw < -5.0 ==> r.value.zScore == -5.0)
      && (raw > 5.0 ==> r.value.zScore == 5.0)
    ensures r.Success? ==> r.value.hoursSinceLast == inp.hoursSinceLast
    ensures r.Success? && inp.daysActive <= 1.0 ==> r.value.txPerDay == inp.totalTxSoFar
    ensures r.Success? && inp.daysActive >= 1.0 ==> r.value.txPerDay * inp.daysActive == inp.totalTxSoFar
  {
    if inp.userStd == 0.0 then Failure(DivisionByZero)
    else
      var z := (inp.amount - inp.userAvg) / inp.userStd;
      ClampInRange(z, -5.0, 5.0);
      Success(Features(Clamp(z, -5.0, 5.0), inp.hoursSinceLast, inp.totalTxSoFar / Max(inp.daysActive, 1.0)))
  }

  /** The opaque model's answer for the scaled features: `predict` and `decision_function`. */
  datatype ModelOutput = ModelOutput(prediction: int, decision: real)

  /** `(-decision + 0.5) * 100`, clamped into [0, 100]. */
  function RiskFromDecision(decision: real): (risk: real)
    ensures 0.0 <= risk <= 100.0
    ensures 0.0 <= (0.5 - decision) * 100.0 <= 100.0 ==> risk == (0.5 - decision) * 100.0
    ensures (0.5 - decision) * 100.0 <= 0.0 ==> risk == 0.0
    ensures (0.5 - decision) * 100.0 >= 100.0 ==> risk == 100.0
  {
    ClampInRange((-decision + 0.5) * 100.0, 0.0, 100.0);
    Clamp((-decision + 0.5) * 100.0, 0.0, 100.0)
  }

  /** A lower decision value (more isolated point) never yields a lower risk. */
  lemma RiskAntitoneInDecision(d1: real, d2: real)
    requires d1 <= d2
    ensures RiskFromDecision(d2) <= RiskFromDecision(d1)
  {
  }

  datatype Verdict = Verdict(prediction: Label, riskScore: real, action: Action, features: Features)

  /** `analyze_transaction`. */
  function AnalyzeTransaction(req: Request, model: ModelOutput): (r: Result<Verdict, ServerError>)
    ensures r.Failure? <==> req.userStd == Some(0.0)
    ensures r.Success? ==>
      && 0.0 <= r.value.riskScore <= 100.0
      && r.value.action == ActionFor(r.value.riskScore)
      && (r.value.prediction == Anomaly <==> model.prediction == -1)
      && -5.0 <= r.value.features.zScore <= 5.0
      && r.value.riskScore == RiskFromDecision(model.decision)
      && r.value.features == ExtractFeatures(WithDefaults(req)).value
  {
    var inp := WithDefaults(req);
    match ExtractFeatures(inp)
    case Failure(e) => Failure(e)
    case Success(f) =>
      var risk := RiskFromDecision(model.decision);
      Success(Verdict(LabelFor(model.prediction), risk, ActionFor(risk), f))
  }

  /** With the deviation left to its default the divisor is at least 1, so the request never fails. */
  lemma DefaultDeviationNeverFails(req: Request, model: ModelOutput)
    requires req.userStd.None?
    ensures AnalyzeTransaction(req, model).Success?
  {
  }

  /** A request carrying only an amount scores a z-score of 0, 24 hours and a rate of 1. */
  lemma AmountOnlyRequest(amount: real, model: ModelOutput)
    ensures var r := AnalyzeTransaction(Request(Some(amount), None, None, None, None, None), model);
      r.Success? && r.value.features == Features(0.0, 24.0, 1.0)
  {
    var inp := WithDefaults(Request(Some(amount), None, None, None, None, None));
    assert inp.userAvg == amount;
    assert inp.userStd >= 1.0;
  }
}
