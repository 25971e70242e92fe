/**
 * The two endpoints of `ML/finomaly/ml_api/app.py`. `/analyze` takes the
 * three features ready-made; `/analyze_transaction` derives them from six
 * required inputs without any guard. Both turn the model's decision value
 * into a clamped 0-100 risk and apply the same action ladder.
 */
module FinomalyApi {
  import opened Wrappers
  import opened ServerRules
  import ScoringApi

  /** A JSON request body with numeric members. */
  type Body = map<string, real>

  const FeatureKeys: seq<string> := ["z_score", "time_since_last", "tx_per_day"]
  const TransactionKeys: seq<string> := ["amount", "user_avg", "user_std", "hours_since_last", "total_tx_so_far", "days_active"]

  /** `k` is absent from `body`, and every key listed before it is present. */
  predicate IsFirstAbsent(body: Body, keys: seq<string>, k: string) {
    exists j :: 0 <= j < |keys| && keys[j] == k && k !in body && forall i :: 0 <= i < j ==> keys[i] in body
  }

  /** The first key of `keys` that `body` lacks: `data[key]` raises `KeyError` for it. */
  function FirstMissing(body: Body, keys: seq<string>): (m: Option<string>)
    ensures m.None? <==> forall i :: 0 <= i < |keys| ==> keys[i] in body
    ensures m.Some? ==> m.value !in body && m.value in keys
    ensures m.Some? ==> IsFirstAbsent(body, keys, m.value)
  {
    if |keys| == 0 then None
    else if keys[0] !in body then Some(keys[0])
    else FirstMissing(body, keys[1..])
  }

  /** `raw = -decision`, then `(raw + 0.5) * 100` clamped into [0, 100]. */
  function RiskFromRaw(raw: real): real {
    Clamp((raw + 0.5) * 100.0, 0.0, 100.0)
  }

  /** Both apps compute the same risk from the same decision value. */
  lemma RiskAgreesWithScoringApi(decision: real)
    ensures RiskFromRaw(-decision) == ScoringApi.RiskFromDecision(decision)
  {
  }

  datatype Verdict = Verdict(prediction: Label, riskScore: real, action: Action)

  /**
   * The response fields both endpoints share: the label, the risk of
   * `ml_api/app.py` for the same decision value, and the ladder's action.
   */
  function Judge(model: ScoringApi.ModelOutput): (v: Verdict)
    ensures v.riskScore == ScoringApi.RiskFromDecision(model.decision)
    ensures 0.0 <= v.riskScore <= 100.0
    ensures v.action == ActionFor(v.riskScore)
    ensures v.prediction == Anomaly <==> model.prediction == -1
  {
    RiskAgreesWithScoringApi(model.decision);
    var risk := RiskFromRaw(-model.decision);
    Verdict(LabelFor(model.prediction), risk, ActionFor(risk))
  }

  /** `/analyze`: fails with the first missing feature key, otherwise reports the clamped risk and its action. */
  function Analyze(body: Body, model: ScoringApi.ModelOutput): (r: Result<Verdict, ServerError>)
    ensures r.Failure? <==> exists i :: 0 <= i < |FeatureKeys| && FeatureKeys[i] !in body
    ensures r.Failure? ==> r.error.MissingKey? && IsFirstAbsent(body, FeatureKeys, r.error.key)
    ensures r.Success? ==>
      && 0.0 <= r.value.riskScore <= 100.0
      && r.value.action == ActionFor(r.value.riskScore)
      && (r.value.prediction == Anomaly <==> model.prediction == -1)
      && r.value.riskScore == ScoringApi.RiskFromDecision(model.decision)
  {
    match FirstMissing(body, FeatureKeys)
    case Some(k) => Failure(MissingKey(k))
    case None => Success(Judge(model))
  }

  /** The derived features of `/analyze_transaction`; the z-score is not clamped. */
  datatype Features = Features(zScore: real, hoursSinceLast: real, txPerDayRate: real)

  datatype TransactionVerdict = TransactionVerdict(verdict: Verdict, features: Features)

  /** Every input `/analyze_transaction` reads is present. */
  predicate HasTransactionKeys(body: Body) {
    && "amount" in body && "user_avg" in body && "user_std" in body
    && "hours_since_last" in body && "total_tx_so_far" in body && "days_active" in body
  }

  /**
   * `/analyze_transaction`: all six inputs are required, and both the user
   * deviation and the days active are divisors without a guard, so a zero
   * in either fails the request.
   */
  function AnalyzeTransaction(body: Body, model: ScoringApi.ModelOutput): (r: Result<TransactionVerdict, ServerError>)
    ensures r.Success? <==>
      && HasTransactionKeys(body)
      && body["user_std"] != 0.0 && body["days_active"] != 0.0
    ensures r.Failure? && !HasTransactionKeys(body) ==>
      r.error.MissingKey? && IsFirstAbsent(body, TransactionKeys, r.error.key)
    ensures r.Failure? && HasTransactionKeys(body) ==> r.error == DivisionByZero
    ensures r.Success? ==>
      && HasTransactionKeys(body)
      && r.value.features.zScore * body["user_std"] == body["amount"] - body["user_avg"]
      && r.value.features.hoursSinceLast == body["hours_since_last"]
      && r.value.features.txPerDayRate * body["days_active"] == body["total_tx_so_far"]
      && 0.0 <= r.value.verdict.riskScore <= 100.0
      && r.value.verdict.action == ActionFor(r.value.verdict.riskScore)
      && r.value.verdict.riskScore == ScoringApi.RiskFromDecision(model.decision)
      && (r.value.verdict.prediction == Anomaly <==> model.prediction == -1)
      && r.value.verdict == Judge(model)
  {
    match FirstMissing(body, TransactionKeys)
    case Some(k) =>
      assert !HasTransactionKeys(body);
      Failure(MissingKey(k))
    case None =>
      assert TransactionKeys[0] in body && TransactionKeys[1] in body && TransactionKeys[2] in body;
      assert TransactionKeys[3] in body && TransactionKeys[4] in body && TransactionKeys[5] in body;
      if body["user_std"] == 0.0 || body["days_active"] == 0.0 then Failure(DivisionByZero)
      else
        var f := Features(
          (body["amount"] - body["user_avg"]) / body["user_std"],
          body["hours_since_last"],
          body["total_tx_so_far"] / body["days_active"]);
        Success(TransactionVerdict(Judge(model), f))
  }

  /** Unlike `ml_api/app.py`, this endpoint passes z-scores outside [-5, 5] to the model. */
  lemma ZScoreIsNotClamped(model: ScoringApi.ModelOutput)
    ensures var body := map["amount" := 100.0, "user_avg" := 0.0, "user_std" := 1.0,
                            "hours_since_last" := 24.0, "total_tx_so_far" := 1.0, "days_active" := 1.0];
      var r := AnalyzeTransaction(body, model);
      r.Success? && r.value.features.zScore == 100.0
  {
    var body := map["amount" := 100.0, "user_avg" := 0.0, "user_std" := 1.0,
                    "hours_since_last" := 24.0, "total_tx_so_far" := 1.0, "days_active" := 1.0];
    assert FirstMissing(body, TransactionKeys).None?;
  }
}
