/**
 * The `/api/test-anomaly` endpoint of `test_api.py`: request validation,
 * the per-user history it grows, the three features it derives from that
 * history, and the integer risk score. The scaler and the model are one
 * opaque `score` parameter; the date parser and `float()` are parameters
 * that may raise.
 */
module TestApi {
  import opened Wrappers
  import opened ServerRules

  /** One remembered transaction; `time` is in seconds. */
  datatype Entry = Entry(amount: real, time: int)

  /** `user_history`: user id to that user's transactions, oldest first. */
  type History = map<string, seq<Entry>>

  /** The JSON object of the request, field name to raw field text. */
  type Body = map<string, string>

  datatype Features = Features(amountDeviation: real, timeSinceLast: real, txPerDay: real)

  /** What the scaler followed by the model produces, or the exception it raises. */
  datatype Scoring = Scored(decision: real, prediction: int) | Raised(message: string)

  datatype Response =
    | Accepted(userId: string, amount: real, anomalyScore: real, isAnomaly: bool, riskScore: int, features: Features)
    | Refused(status: int, message: string)

  /** The endpoint returns a response and leaves the history it updated. */
  datatype Outcome = Outcome(history: History, response: Response)

  const NoDataMessage := "No data provided"
  const MissingFieldsMessage := "Missing required fields"
  const ModelNotLoadedMessage := "Model not loaded"

  predicate HasRequired(body: Body) {
    "user_id" in body && "amount" in body && "timestamp" in body
  }

  function Sum(xs: seq<Entry>): real {
    if |xs| == 0 then 0.0 else Sum(xs[..|xs| - 1]) + xs[|xs| - 1].amount
  }

  /** `np.mean` of the amounts of a non-empty history. */
  function Mean(xs: seq<Entry>): real
    requires |xs| > 0
  {
    Sum(xs) / (|xs| as real)
  }

  /** Python's `timedelta.days`: whole days, rounded towards minus infinity. */
  function Days(seconds: int): int {
    seconds / 86400
  }

  /** The features of the newest transaction of a user's history (the current one is last). */
  function FeaturesOf(txs: seq<Entry>): (f: Features)
    requires |txs| > 0
    ensures f.amountDeviation * Max(Mean(txs), 1.0) == txs[|txs| - 1].amount - Mean(txs)
    ensures |txs| == 1 ==> f.timeSinceLast == 24.0 && f.txPerDay == 1.0
    ensures |txs| > 1 ==>
      && f.timeSinceLast * 3600.0 == (txs[|txs| - 1].time - txs[|txs| - 2].time) as real
      && f.txPerDay * (Max((Days(txs[|txs| - 1].time - txs[0].time) + 1) as real, 1.0)) == |txs| as real
  {
    var n := |txs|;
    var avg := Mean(txs);
    var current := txs[n - 1];
    var deviation := (current.amount - avg) / Max(avg, 1.0);
    if n == 1 then Features(deviation, 24.0, 1.0)
    else
      var span := Days(current.time - txs[0].time) + 1;
      Features(deviation, (current.time - txs[n - 2].time) as real / 3600.0, n as real / Max(span as real, 1.0))
  }

  /** Python's `int()` on a float: truncation towards zero. */
  function Trunc(x: real): (t: int)
    ensures x >= 0.0 ==> t as real <= x < t as real + 1.0
    ensures x < 0.0 ==> t as real - 1.0 < x <= t as real
  {
    if x >= 0.0 then x.Floor else -((-x).Floor)
  }

  lemma TruncMonotone(x: real, y: real)
    requires x <= y
    ensures Trunc(x) <= Trunc(y)
  {
  }

  /** `max(0, min(100, int((1 - (score + 0.5)) * 100)))`. */
  function RiskScore(anomalyScore: real): (r: int)
    ensures 0 <= r <= 100
  {
    var raw := Trunc((1.0 - (anomalyScore + 0.5)) * 100.0);
    if raw < 0 then 0 else if raw > 100 then 100 else raw
  }

  /** A lower anomaly score never gives a lower risk score. */
  lemma RiskScoreAntitone(a: real, b: real)
    requires a <= b
    ensures RiskScore(a) >= RiskScore(b)
  {
    TruncMonotone((1.0 - (b + 0.5)) * 100.0, (1.0 - (a + 0.5)) * 100.0);
  }

  /**
   * Inside the band where no clamp applies, the score is the truncated
   * `(0.5 - score) * 100`; a score below -0.5 saturates at 100 and one
   * from 0.5 up at 0.
   */
  lemma RiskScoreUnclamped(a: real)
    ensures -0.5 <= a <= 0.5 ==> RiskScore(a) as real <= (0.5 - a) * 100.0 < RiskScore(a) as real + 1.0
    ensures a < -0.5 ==> RiskScore(a) == 100
    ensures a >= 0.5 ==> RiskScore(a) == 0
  {
  }

  /**
   * `test_anomaly`. Validation happens in source order and leaves the
   * history alone; past it, the user's list exists before the amount and
   * timestamp are parsed, and the entry is stored before the model runs.
   */
  function TestAnomaly(
    history: History,
    data: Option<Body>,
    score: Option<Features -> Scoring>,
    toFloat: string -> Result<real, string>,
    toTime: string -> Result<int, string>): (o: Outcome)
    ensures o.response.Accepted? ==>
      && data.Some? && HasRequired(data.value) && score.Some?
      && o.response.userId == data.value["user_id"]
      && 0 <= o.response.riskScore <= 100
    ensures o.response.Accepted? ==>
      var uid := o.response.userId;
      && uid in o.history && |o.history[uid]| > 0
      && o.response.features == FeaturesOf(o.history[uid])
      && o.history[uid][|o.history[uid]| - 1].amount == o.response.amount
      && score.value(o.response.features).Scored?
      && score.value(o.response.features).decision == o.response.anomalyScore
      && (o.response.isAnomaly <==> score.value(o.response.features).prediction == -1)
      && o.response.riskScore == RiskScore(o.response.anomalyScore)
  {
    if data.None? || data.value == map[] then Outcome(history, Refused(400, NoDataMessage))
    else
      var body := data.value;
      if !HasRequired(body) then Outcome(history, Refused(400, MissingFieldsMessage))
      else if score.None? then Outcome(history, Refused(500, ModelNotLoadedMessage))
      else
        var uid := body["user_id"];
        var prepared := if uid in history then history else history[uid := []];
        match toFloat(body["amount"])
        case Failure(e) => Outcome(prepared, Refused(500, e))
        case Success(amount) =>
          match toTime(body["timestamp"])
          case Failure(e) => Outcome(prepared, Refused(500, e))
          case Success(time) =>
            var txs := prepared[uid] + [Entry(amount, time)];
            var grown := prepared[uid := txs];
            var f := FeaturesOf(txs);
            match score.value(f)
            case Raised(e) => Outcome(grown, Refused(500, e))
            case Scored(d, p) => Outcome(grown, Accepted(uid, amount, d, p == -1, RiskScore(d), f))
  }

  /** The list `user_history[uid]` starts from: the stored one, or empty for a new user. */
  function Prior(history: History, uid: string): seq<Entry> {
    if uid in history then history[uid] else []
  }

  /** A request that fails validation answers 400/500 in source order and touches no history. */
  lemma ValidationOrder(history: History, data: Option<Body>, score: Option<Features -> Scoring>,
                        toFloat: string -> Result<real, string>, toTime: string -> Result<int, string>)
    ensures var o := TestAnomaly(history, data, score, toFloat, toTime);
      && (data.None? || data.value == map[] ==> o == Outcome(history, Refused(400, NoDataMessage)))
      && (data.Some? && data.value != map[] && !HasRequired(data.value) ==>
            o == Outcome(history, Refused(400, MissingFieldsMessage)))
      && (data.Some? && data.value != map[] && HasRequired(data.value) && score.None? ==>
            o == Outcome(history, Refused(500, ModelNotLoadedMessage)))
  {
  }

  /** An accepted request appends exactly one entry to its user's list, and only to it. */
  lemma AcceptedAppendsOne(history: History, data: Option<Body>, score: Option<Features -> Scoring>,
                           toFloat: string -> Result<real, string>, toTime: string -> Result<int, string>)
    requires TestAnomaly(history, data, score, toFloat, toTime).response.Accepted?
    ensures var o := TestAnomaly(history, data, score, toFloat, toTime);
      var uid := data.value["user_id"];
      && toFloat(data.value["amount"]).Success?
      && toTime(data.value["timestamp"]).Success?
      && o.history.Keys == history.Keys + {uid}
      && o.history[uid] == Prior(history, uid)
           + [Entry(toFloat(data.value["amount"]).value, toTime(data.value["timestamp"]).value)]
      && (forall u :: u in history && u != uid ==> o.history[u] == history[u])
      && o.response.amount == toFloat(data.value["amount"]).value
  {
  }

  /** The entry is stored before the model runs, so a failing model still leaves it in the history. */
  lemma ScoringFailureKeepsEntry(history: History, body: Body, model: Features -> Scoring,
                                 toFloat: string -> Result<real, string>, toTime: string -> Result<int, string>)
    requires body != map[] && HasRequired(body)
    requires toFloat(body["amount"]).Success? && toTime(body["timestamp"]).Success?
    requires var txs := Prior(history, body["user_id"])
               + [Entry(toFloat(body["amount"]).value, toTime(body["timestamp"]).value)];
             model(FeaturesOf(txs)).Raised?
    ensures var o := TestAnomaly(history, Some(body), Some(model), toFloat, toTime);
      var uid := body["user_id"];
      && o.response.Refused? && o.response.status == 500
      && o.history[uid] == Prior(history, uid)
           + [Entry(toFloat(body["amount"]).value, toTime(body["timestamp"]).value)]
  {
  }

  /** A failed amount or timestamp conversion still leaves an (empty) list behind for a new user. */
  lemma ConversionFailureLeavesEmptyList(history: History, body: Body, model: Features -> Scoring,
                                         toFloat: string -> Result<real, string>, toTime: string -> Result<int, string>)
    requires body != map[] && HasRequired(body)
    requires toFloat(body["amount"]).Failure? || toTime(body["timestamp"]).Failure?
    ensures var o := TestAnomaly(history, Some(body), Some(model), toFloat, toTime);
      var uid := body["user_id"];
      && o.response.Refused? && o.response.status == 500
      && o.history == history[uid := Prior(history, uid)]
  {
  }

  /** A user's first accepted transaction gets the defaults 24 hours and 1 transaction per day. */
  lemma FirstTransactionDefaults(history: History, data: Option<Body>, score: Option<Features -> Scoring>,
                                 toFloat: string -> Result<real, string>, toTime: string -> Result<int, string>)
    requires TestAnomaly(history, data, score, toFloat, toTime).response.Accepted?
    requires Prior(history, data.value["user_id"]) == []
    ensures var f := TestAnomaly(history, data, score, toFloat, toTime).response.features;
      f.timeSinceLast == 24.0 && f.txPerDay == 1.0 && f.amountDeviation == 0.0
  {
    var body := data.value;
    var e := Entry(toFloat(body["amount"]).value, toTime(body["timestamp"]).value);
    assert Sum([e]) == Sum([e][..0]) + e.amount;
  }
}
