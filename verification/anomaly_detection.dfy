/**
 * The CSV upload screen: file selection, normalisation of the parsed rows,
 * the batch scoring request and its three outcomes, and the aggregates shown
 * over the scored results.
 */
module AnomalyDetection {
  import opened Wrappers
  import opened Js
  import opened Text
  import Csv
  import opened Tiers

  /** A selected file: its declared media type and its text. */
  datatype File = File(mediaType: string, text: string)

  /** One scored transaction as displayed. */
  datatype Scored = Scored(
    id: Option<string>,
    account: Option<string>,
    amount: Option<real>,
    riskScore: real,
    riskLevel: string,
    isAnomaly: Option<bool>,
    reasons: seq<string>)

  /** The component state: selected file, displayed results, spinner and error banner. */
  datatype State = State(csvFile: Option<File>, results: seq<Scored>, loading: bool, error: Option<string>)

  function Initial(): State {
    State(None, [], false, None)
  }

  const CsvMediaType := "text/csv"
  const InvalidFileMessage := "Please upload a valid CSV file"
  const NoFileMessage := "Please upload a CSV file first"
  const BatchFailedMessage := "Batch analysis failed"
  const InvalidFormatMessage := "Invalid response format"
  const ProcessFailedPrefix := "Failed to process CSV: "

  /**
   * `handleFileUpload`: a CSV file is selected and the error cleared; no
   * file, or a file of another type, only raises the error banner.
   */
  function HandleFileUpload(st: State, file: Option<File>): (st': State)
    ensures file.Some? && file.value.mediaType == CsvMediaType ==>
      st'.csvFile == file && st'.error.None?
    ensures !(file.Some? && file.value.mediaType == CsvMediaType) ==>
      st'.csvFile == st.csvFile && st'.error == Some(InvalidFileMessage)
    ensures st'.results == st.results && st'.loading == st.loading
  {
    if file.Some? && file.value.mediaType == CsvMediaType then st.(csvFile := file, error := None)
    else st.(error := Some(InvalidFileMessage))
  }

  /** A CSV cell as a JavaScript value: a missing column, or a missing header, reads as `undefined`. */
  function Field(rec: Csv.Record, key: string): Value {
    if key in rec then OfString(rec[key]) else Undefined
  }

  /** `parseFloat(v)`: numbers pass through, strings go through the parser, anything else is NaN. */
  function ParseFloat(v: Value, parseFloat: StrToNum): Value {
    match v
    case Num(n) => Num(n)
    case Str(s) => (match parseFloat(s) case Some(x) => Num(x) case None => NaN)
    case _ => NaN
  }

  /** One transaction of the batch request. */
  datatype Outgoing = Outgoing(id: Value, account: Value, amount: Value, timestamp: Value)

  /**
   * The mapping of a parsed row into the request: each field is the first
   * truthy of its lower- and upper-case column, with a final fallback (a
   * generated id, 'Unknown', 0, the current time).
   */
  function Normalize(rec: Csv.Record, generatedId: string, now: string, parseFloat: StrToNum): Outgoing {
    Outgoing(
      OrChain([Field(rec, "id"), Field(rec, "ID")], Str(generatedId)),
      OrChain([Field(rec, "account"), Field(rec, "Account")], Str("Unknown")),
      ParseFloat(OrChain([Field(rec, "amount"), Field(rec, "Amount")], Num(0.0)), parseFloat),
      OrChain([Field(rec, "timestamp"), Field(rec, "Timestamp")], Str(now)))
  }

  /** `a || b || fallback`, as the first truthy of the three. */
  lemma TwoColumnFallback(a: Value, b: Value, fallback: Value)
    ensures Truthy(a) ==> OrChain([a, b], fallback) == a
    ensures !Truthy(a) && Truthy(b) ==> OrChain([a, b], fallback) == b
    ensures !Truthy(a) && !Truthy(b) ==> OrChain([a, b], fallback) == fallback
  {
    OrChainPicksFirstTruthy([a, b], fallback);
  }

  /**
   * The fallbacks of the normalisation: an empty or missing lower-case
   * column falls through to the upper-case one, then to the default; the id
   * is never empty unless the generated one is; the amount is the parsed
   * text of the column picked, a number or NaN, and 0 when both amount
   * columns are empty or missing.
   */
  lemma NormalizeFallbacks(rec: Csv.Record, generatedId: string, now: string, parseFloat: StrToNum)
    ensures var out := Normalize(rec, generatedId, now, parseFloat);
      && (Truthy(Field(rec, "id")) ==> out.id == Field(rec, "id"))
      && (!Truthy(Field(rec, "id")) && Truthy(Field(rec, "ID")) ==> out.id == Field(rec, "ID"))
      && (!Truthy(Field(rec, "id")) && !Truthy(Field(rec, "ID")) ==> out.id == Str(generatedId))
      && (generatedId != "" ==> out.id.Str? && out.id.s != "")
      && (Truthy(Field(rec, "account")) ==> out.account == Field(rec, "account"))
      && (!Truthy(Field(rec, "account")) && Truthy(Field(rec, "Account")) ==> out.account == Field(rec, "Account"))
      && (!Truthy(Field(rec, "account")) && !Truthy(Field(rec, "Account")) ==> out.account == Str("Unknown"))
      && (out.amount.Num? || out.amount.NaN?)
      && (!Truthy(Field(rec, "amount")) && !Truthy(Field(rec, "Amount")) ==> out.amount == Num(0.0))
      && (Truthy(Field(rec, "amount")) ==>
            out.amount == (match parseFloat(rec["amount"].value) case Some(x) => Num(x) case None => NaN))
      && (!Truthy(Field(rec, "amount")) && Truthy(Field(rec, "Amount")) ==>
            out.amount == (match parseFloat(rec["Amount"].value) case Some(x) => Num(x) case None => NaN))
      && (Truthy(Field(rec, "timestamp")) ==> out.timestamp == Field(rec, "timestamp"))
      && (!Truthy(Field(rec, "timestamp")) && Truthy(Field(rec, "Timestamp")) ==> out.timestamp == Field(rec, "Timestamp"))
      && (!Truthy(Field(rec, "timestamp")) && !Truthy(Field(rec, "Timestamp")) ==> out.timestamp == Str(now))
  {
    TwoColumnFallback(Field(rec, "id"), Field(rec, "ID"), Str(generatedId));
    TwoColumnFallback(Field(rec, "account"), Field(rec, "Account"), Str("Unknown"));
    TwoColumnFallback(Field(rec, "amount"), Field(rec, "Amount"), Num(0.0));
    TwoColumnFallback(Field(rec, "timestamp"), Field(rec, "Timestamp"), Str(now));
  }

  /** The parsed rows of the uploaded text. */
  function ParsedRows(text: string): seq<Csv.Record> {
    Csv.ParseRows(Csv.Headers(text), Csv.DataLines(text))
  }

  /**
   * The request body: one normalised transaction per parsed row. `randomId(i)`
   * and `clock(i)` are the random id and the current time the source would
   * draw while mapping row `i`.
   */
  function BuildRequest(rows: seq<Csv.Record>, randomId: nat -> string, clock: nat -> string, parseFloat: StrToNum): (out: seq<Outgoing>)
    ensures |out| == |rows|
    ensures forall i :: 0 <= i < |rows| ==> out[i] == Normalize(rows[i], randomId(i), clock(i), parseFloat)
  {
    seq(|rows|, i requires 0 <= i < |rows| => Normalize(rows[i], randomId(i), clock(i), parseFloat))
  }

  /** The first half of `analyzeTransactions`: the state while the request is in flight, and the request if one is sent. */
  datatype Started = Started(state: State, request: Option<seq<Outgoing>>)

  /**
   * Without a selected file only the error banner changes and nothing is
   * sent; otherwise the spinner starts, the error is cleared and the request
   * carries one normalised transaction per parsed record, in order, so one
   * per non-blank data line.
   */
  function BeginAnalysis(st: State, randomId: nat -> string, clock: nat -> string, parseFloat: StrToNum): (r: Started)
    ensures st.csvFile.None? ==> r.request.None? && r.state == st.(error := Some(NoFileMessage))
    ensures st.csvFile.Some? ==>
      && r.state == st.(loading := true, error := None)
      && r.request.Some?
      && |r.request.value| == |Csv.NonBlankIndices(Csv.DataLines(st.csvFile.value.text))|
      && r.request.value == BuildRequest(ParsedRows(st.csvFile.value.text), randomId, clock, parseFloat)
  {
    match st.csvFile
    case None => Started(st.(error := Some(NoFileMessage)), None)
    case Some(f) =>
      var rows := ParsedRows(f.text);
      Csv.ParseRowsLength(Csv.Headers(f.text), Csv.DataLines(f.text));
      Started(st.(loading := true, error := None), Some(BuildRequest(rows, randomId, clock, parseFloat)))
  }

  /** One element of the service's `results` array. */
  datatype ResultItem = ResultItem(
    transactionId: Option<string>,
    account: Option<string>,
    amount: Option<real>,
    riskScore: Option<real>,
    riskLevel: Option<string>,
    isAnomaly: Option<bool>,
    reasons: Option<seq<string>>)

  /** The `results` member of the response body. */
  datatype ResultsField = Missing | NotAnArray | Items(items: seq<ResultItem>)

  /** How the request ended: a response with its status and body, or an exception from the network or the body parser. */
  datatype Reply = Response(ok: bool, results: ResultsField) | Thrown(message: string)

  /** `result.riskScore || 0`, `result.riskLevel || "Unknown"`, `result.reasons || []`; the rest is copied. */
  function ToScored(item: ResultItem): Scored {
    Scored(
      item.transactionId,
      item.account,
      item.amount,
      if item.riskScore.Some? && item.riskScore.value != 0.0 then item.riskScore.value else 0.0,
      if item.riskLevel.Some? && item.riskLevel.value != "" then item.riskLevel.value else "Unknown",
      item.isAnomaly,
      item.reasons.GetOr([]))
  }

  /** Missing fields take the defaults 0, 'Unknown' and []; present ones are kept. */
  lemma ToScoredDefaults(item: ResultItem)
    ensures var s := ToScored(item);
      && s.id == item.transactionId && s.account == item.account && s.amount == item.amount
      && s.isAnomaly == item.isAnomaly
      && (item.riskScore.None? ==> s.riskScore == 0.0)
      && (item.riskScore.Some? ==> s.riskScore == item.riskScore.value)
      && (item.riskLevel.None? || item.riskLevel == Some("") ==> s.riskLevel == "Unknown")
      && (item.riskLevel.Some? && item.riskLevel.value != "" ==> s.riskLevel == item.riskLevel.value)
      && (item.reasons.None? ==> s.reasons == [])
      && (item.reasons.Some? ==> s.reasons == item.reasons.value)
  {
  }

  /** The displayed results of a successful response: one per item, in order. */
  function MapResults(items: seq<ResultItem>): (out: seq<Scored>)
    ensures |out| == |items|
    ensures forall i :: 0 <= i < |items| ==> out[i] == ToScored(items[i])
  {
    seq(|items|, i requires 0 <= i < |items| => ToScored(items[i]))
  }

  /**
   * The second half of `analyzeTransactions`. Every outcome stops the
   * spinner. An exception, a failed status or a body without a `results`
   * array only sets the error and leaves the previous results in place; a
   * well-formed response replaces the results with one entry per item.
   */
  function CompleteAnalysis(st: State, reply: Reply): (st': State)
    ensures !st'.loading
    ensures st'.csvFile == st.csvFile
    ensures reply.Thrown? ==> st' == st.(loading := false, error := Some(ProcessFailedPrefix + reply.message))
    ensures reply.Response? && !reply.ok ==> st' == st.(loading := false, error := Some(BatchFailedMessage))
    ensures reply.Response? && reply.ok && !reply.results.Items? ==>
      st' == st.(loading := false, error := Some(InvalidFormatMessage))
    ensures reply.Response? && reply.ok && reply.results.Items? ==>
      && st'.error == st.error
      && |st'.results| == |reply.results.items|
      && forall i :: 0 <= i < |st'.results| ==> st'.results[i] == ToScored(reply.results.items[i])
  {
    match reply
    case Thrown(m) => st.(loading := false, error := Some(ProcessFailedPrefix + m))
    case Response(ok, results) =>
      if !ok then st.(loading := false, error := Some(BatchFailedMessage))
      else if !results.Items? then st.(loading := false, error := Some(InvalidFormatMessage))
      else st.(results := MapResults(results.items), loading := false)
  }

  /** Only a successful response changes the displayed results. */
  lemma FailureKeepsResults(st: State, reply: Reply)
    ensures CompleteAnalysis(st, reply).results != st.results ==>
      reply.Response? && reply.ok && reply.results.Items?
  {
  }

  /** A full run from a selected file: the spinner is on in between and off at the end, whatever the reply. */
  lemma AnalysisRunClearsLoading(st: State, randomId: nat -> string, clock: nat -> string, parseFloat: StrToNum, reply: Reply)
    requires st.csvFile.Some?
    ensures BeginAnalysis(st, randomId, clock, parseFloat).state.loading
    ensures !CompleteAnalysis(BeginAnalysis(st, randomId, clock, parseFloat).state, reply).loading
    ensures reply.Response? && reply.ok && reply.results.Items? ==>
      CompleteAnalysis(BeginAnalysis(st, randomId, clock, parseFloat).state, reply).error.None?
  {
  }

  /** The risk scores of the displayed results. */
  function Scores(results: seq<Scored>): (s: seq<real>)
    ensures |s| == |results|
    ensures forall i :: 0 <= i < |results| ==> s[i] == results[i].riskScore
  {
    seq(|results|, i requires 0 <= i < |results| => results[i].riskScore)
  }

  /** The Safe / Medium / High slices of the pie chart. */
  datatype Distribution = Distribution(safe: nat, medium: nat, high: nat)

  /** `riskDistribution`: the three filters over the results. */
  function RiskDistribution(results: seq<Scored>): Distribution {
    var s := Scores(results);
    Distribution(CountWhere(s, InSafe), CountWhere(s, InMedium), CountWhere(s, InHigh))
  }

  /** Every displayed result falls in exactly one slice of the pie. */
  lemma DistributionPartitionsResults(results: seq<Scored>)
    ensures var d := RiskDistribution(results); d.safe + d.medium + d.high == |results|
  {
    TierCountsPartition(Scores(results));
  }

  /** `anomalousTransactions.length`: results flagged as anomalies. */
  function AnomalyCount(results: seq<Scored>): (n: nat)
    ensures n <= |results|
  {
    if |results| == 0 then 0
    else AnomalyCount(results[..|results| - 1]) + (if results[|results| - 1].isAnomaly == Some(true) then 1 else 0)
  }

  /** Counting the flagged results of a concatenation adds the counts of the parts. */
  lemma {:induction false} AnomalyCountAppend(a: seq<Scored>, b: seq<Scored>)
    ensures AnomalyCount(a + b) == AnomalyCount(a) + AnomalyCount(b)
    decreases |b|
  {
    if |b| > 0 {
      var n := |b| - 1;
      assert (a + b)[..|a + b| - 1] == a + b[..n];
      assert (a + b)[|a + b| - 1] == b[n];
      AnomalyCountAppend(a, b[..n]);
    } else {
      assert a + b == a;
    }
  }

  /**
   * The count is 0 exactly when no result is flagged `isAnomaly === true`,
   * and equals the number of results exactly when every one is; a result
   * whose flag is false or missing is never counted.
   */
  lemma {:induction false} AnomalyCountExtremes(results: seq<Scored>)
    ensures AnomalyCount(results) == 0 <==> forall i :: 0 <= i < |results| ==> results[i].isAnomaly != Some(true)
    ensures AnomalyCount(results) == |results| <==> forall i :: 0 <= i < |results| ==> results[i].isAnomaly == Some(true)
  {
    if |results| > 0 {
      var init := results[..|results| - 1];
      AnomalyCountExtremes(init);
      assert forall i :: 0 <= i < |init| ==> init[i] == results[i];
    }
  }

  /** Sum of the risk scores (each already defaulted to 0). */
  function RiskSum(results: seq<Scored>): real {
    if |results| == 0 then 0.0 else RiskSum(results[..|results| - 1]) + results[|results| - 1].riskScore
  }

  /** The risk sum lies between `|results| * lo` and `|results| * hi` when every score does. */
  lemma {:induction false} RiskSumBounds(results: seq<Scored>, lo: real, hi: real)
    requires forall i :: 0 <= i < |results| ==> lo <= results[i].riskScore <= hi
    ensures |results| as real * lo <= RiskSum(results) <= |results| as real * hi
  {
    if |results| > 0 {
      RiskSumBounds(results[..|results| - 1], lo, hi);
    }
  }

  /** `Math.round(x)`: the nearest integer, halves rounded up. */
  function Round(x: real): int {
    (x + 0.5).Floor
  }

  /** `Math.round(sum / results.length) || 0`: the rounded mean score, 0 for no results. */
  function AverageRisk(results: seq<Scored>): int {
    if |results| == 0 then 0 else Round(RiskSum(results) / |results| as real)
  }

  /** The rounded average lies in [0, 100] when every score does, and is 0 without results. */
  lemma AverageRiskBounds(results: seq<Scored>)
    requires forall i :: 0 <= i < |results| ==> 0.0 <= results[i].riskScore <= 100.0
    ensures 0 <= AverageRisk(results) <= 100
    ensures |results| == 0 ==> AverageRisk(results) == 0
  {
    if |results| > 0 {
      RiskSumBounds(results, 0.0, 100.0);
      var n := |results| as real;
      var avg := RiskSum(results) / n;
      assert 0.0 <= avg <= 100.0 by {
        assert avg * n == RiskSum(results);
      }
    }
  }

  /** `sum + (t.amount || 0)`: the total amount, missing or zero amounts counting 0. */
  function TotalAmount(results: seq<Scored>): real {
    if |results| == 0 then 0.0
    else TotalAmount(results[..|results| - 1]) + results[|results| - 1].amount.GetOr(0.0)
  }

  /** The total over a concatenation is the sum of the totals; a result without an amount adds nothing. */
  lemma {:induction false} TotalAmountAppend(a: seq<Scored>, b: seq<Scored>)
    ensures TotalAmount(a + b) == TotalAmount(a) + TotalAmount(b)
    decreases |b|
  {
    if |b| > 0 {
      var n := |b| - 1;
      assert (a + b)[..|a + b| - 1] == a + b[..n];
      assert (a + b)[|a + b| - 1] == b[n];
      TotalAmountAppend(a, b[..n]);
    } else {
      assert a + b == a;
    }
  }

  /** One bar of the risk-score chart. */
  datatype ChartPoint = ChartPoint(transaction: string, riskScore: real, amount: Option<real>)

  /** The label `T${index + 1}`. */
  function ChartLabel(index: nat): string {
    "T" + NatToString(index + 1)
  }

  /** `riskScoreData`: one bar per result, in order. */
  function RiskScoreData(results: seq<Scored>): seq<ChartPoint> {
    seq(|results|, i requires 0 <= i < |results| => ChartPoint(ChartLabel(i), results[i].riskScore, results[i].amount))
  }

  /** The chart has one bar per result, carrying its score and amount, and no two bars share a label. */
  lemma RiskScoreDataShape(results: seq<Scored>)
    ensures |RiskScoreData(results)| == |results|
    ensures forall i :: 0 <= i < |results| ==>
      RiskScoreData(results)[i].riskScore == results[i].riskScore
      && RiskScoreData(results)[i].amount == results[i].amount
    ensures forall i :: 0 <= i < |results| ==> RiskScoreData(results)[i].transaction == "T" + NatToString(i + 1)
    ensures forall i, j :: 0 <= i < j < |results| ==> RiskScoreData(results)[i].transaction != RiskScoreData(results)[j].transaction
  {
    forall i, j | 0 <= i < j < |results|
      ensures RiskScoreData(results)[i].transaction != RiskScoreData(results)[j].transaction
    {
      if ChartLabel(i) == ChartLabel(j) {
        assert ChartLabel(i)[1..] == NatToString(i + 1);
        assert ChartLabel(j)[1..] == NatToString(j + 1);
        NatToStringInjective(i + 1, j + 1);
      }
    }
  }
}
