# Finomaly transaction-risk pipeline in Dafny

This project models the deterministic core of Finomaly, a dashboard that scores financial transactions for anomalies, and proves properties of the model. It covers these parts:

- **Upload screen** (`AnomalyDetection`, with `Csv` and `Text`):
  - the CSV upload and the naive comma parser;
  - the per-field `||` fallbacks that normalise each row before the batch request;
  - the three ways a batch reply can end;
  - the 50/70 three-way tiering (`Tiers`) behind the distribution, badge and progress colours;
  - the average, total and chart aggregates.
- **Dashboard** (`Dashboard`, with `Firestore`):
  - two live snapshot feeds, each replacing its own list;
  - the loading flag, which only the alerts feed clears;
  - the precedence rule for the score shown per transaction;
  - the tier counts, anomaly total and zero-guarded percentages.
- **Settings** (`Settings`): the settings record with its change, save and reset transitions over an abstract key/value storage, and the three-band summary.
- **Transactions view** (`Transactions`):
  - the snapshot success and error transitions;
  - case-insensitive colour lookups;
  - the displayed id, the report total and the missing-date placeholder.
- **Scoring servers**:
  - `ScoringApi` models `ml_api/app.py`: input defaults, z clamp, guarded rate, risk clamp, action ladder and label.
  - `FinomalyApi` models `ML/finomaly/ml_api/app.py`: two endpoints with unguarded key lookups and divisions.
  - `TestApi` models `test_api.py`: validation order, per-user history and the integer risk.
  - `Pipeline` models `anomaly_pipeline.py`: per-user features, the trained guard and min-max risk conversion.
  - `ServerRules` holds the clamp, the block/review/allow ladder and the label, which the servers share.

JavaScript values are the datatype `Js.Value`. It covers truthiness, `||`, `===` and the numeric coercion of `<=`/`>`. Several opaque things become parameters:

- `parseFloat` and string-to-number coercion;
- `Math.random`, `new Date()` and date parsing;
- Python's `float()`;
- the scaler and the isolation forest.

Exceptions become `Result` failures or error responses.

Behaviours of the code worth knowing:

- **Tier limits.** The tier limits are the literals 50 and 70 at every call site. The Settings values are never read by any other component, and never loaded back from storage.
- **Alert precedence.** The dashboard consults only the *first* alert whose `transactionId` is `===` to the transaction's id. If that alert's score is falsy (absent, or 0), the transaction's own score is used. A later matching alert is never consulted.
- **Failed batch replies.** A failed or malformed batch reply leaves the previously displayed results in place.
- **Listener errors.** Firestore cancels a snapshot listener after it reports an error, so the transactions view shows an error until it is mounted again.
- **Settings edits.** An edit changes the in-memory settings immediately, and saving only writes them to storage.

## Model

| member | source | states |
|---|---|---|
| `Csv.ParseCsv` | src/components/AnomalyDetection.js:21-37 | the parser's result is one record per non-blank line after the header, as many as there are such lines |
| `Csv.IndicesWhere` | src/components/AnomalyDetection.js:26-27 | the kept line positions are exactly the lines that pass the test, strictly increasing, none missed |
| `Csv.ParseRowsLength` | src/components/AnomalyDetection.js:26-35 | the number of records equals the number of data lines whose trimmed text is non-empty |
| `Csv.ParseRowAt` | src/components/AnomalyDetection.js:26-33 | record k is built from the k-th non-blank data line, in input order, and its keys are the trimmed headers |
| `Csv.BuildRecordKeys` | src/components/AnomalyDetection.js:29-32 | a record's keys are exactly the trimmed header names |
| `Csv.BuildRecordColumns` | src/components/AnomalyDetection.js:28-32 | the field for the last header of a name holds the trimmed value at that position, absent when the row is short; extra values are dropped |
| `Text.TrimEmptyIffAllWhitespace` | src/components/AnomalyDetection.js:27 | a line is blank after `trim()` exactly when every character is white space |
| `Text.TrimIsMaximalInnerSlice` | src/components/AnomalyDetection.js:23 | `trim()` returns a slice surrounded only by white space and not starting or ending with it |
| `Text.TrimIdempotent` | src/components/AnomalyDetection.js:28 | trimming a trimmed cell changes nothing |
| `Text.JoinSplit` | src/components/AnomalyDetection.js:22 | joining the split pieces with the separator gives back the text |
| `Text.SplitJoin` | src/components/AnomalyDetection.js:28 | splitting a join of separator-free parts gives back the parts |
| `Js.OrChainPicksFirstTruthy` | src/components/AnomalyDetection.js:59-62 | a chain of `or` operators yields its first truthy operand, else its last operand |
| `AnomalyDetection.HandleFileUpload` | src/components/AnomalyDetection.js:11-19 | a `text/csv` file is selected and the error cleared; anything else sets 'Please upload a valid CSV file' and keeps the previous file |
| `AnomalyDetection.TwoColumnFallback` | src/components/AnomalyDetection.js:59-62 | lower-case column, then upper-case column, then the default, with empty values falling through |
| `AnomalyDetection.NormalizeFallbacks` | src/components/AnomalyDetection.js:58-63 | id, account and timestamp each take the lower-case column if truthy, else the upper-case one, else the generated id, 'Unknown' or the current time; amount is parseFloat of the amount column, else of the Amount column, else 0, so a number or NaN |
| `AnomalyDetection.BuildRequest` | src/components/AnomalyDetection.js:57-64 | one normalised transaction per parsed row, in order |
| `AnomalyDetection.BeginAnalysis` | src/components/AnomalyDetection.js:39-63 | with no file only the error 'Please upload a CSV file first' is set and no request is made; otherwise loading starts, the error clears, and the request is exactly `BuildRequest` of the parsed CSV records: each record normalised, in file order, one per non-blank data line |
| `AnomalyDetection.CompleteAnalysis` | src/components/AnomalyDetection.js:67-94 | a thrown error gives 'Failed to process CSV: ' + message; a non-ok status gives 'Batch analysis failed'; a missing or non-array `results` gives 'Invalid response format'. All three keep the results. Success replaces the results one-to-one. Loading always ends false |
| `AnomalyDetection.FailureKeepsResults` | src/components/AnomalyDetection.js:67-89 | the displayed results change only on an ok response with a results array |
| `AnomalyDetection.AnalysisRunClearsLoading` | src/components/AnomalyDetection.js:45-94 | loading is true while the request is in flight and false after every outcome |
| `AnomalyDetection.ToScoredDefaults` | src/components/AnomalyDetection.js:76-84 | result fields are copied; missing riskScore gives 0, missing or empty riskLevel gives 'Unknown', missing reasons gives [] |
| `AnomalyDetection.MapResults` | src/components/AnomalyDetection.js:76-86 | the displayed results are an order-preserving one-to-one map of the reply's items |
| `Tiers.FiltersMatchClassify` | src/components/AnomalyDetection.js:111-115 | the three filters as written select exactly the Safe (≤50), Medium (>50, ≤70) and High (>70) tiers |
| `Tiers.StylesFollowTier` | src/components/AnomalyDetection.js:97-107 | badge and progress colours use the same boundaries as the tiers |
| `Tiers.ClassifyMonotone` | src/components/AnomalyDetection.js:97-107 | a higher score never gets a lower tier |
| `Tiers.TierCountsPartition` | src/components/AnomalyDetection.js:111-115 | the three tier counts of numeric scores add up to the number of scores |
| `AnomalyDetection.DistributionPartitionsResults` | src/components/AnomalyDetection.js:111-115 | the risk distribution's three values sum to the number of results |
| `AnomalyDetection.AverageRiskBounds` | src/components/AnomalyDetection.js:205 | the rounded average risk is 0 for no results and within [0, 100] for scores in that range |
| `AnomalyDetection.TotalAmountAppend` | src/components/AnomalyDetection.js:212 | the amount total, with missing amounts as 0, is additive over concatenation |
| `AnomalyDetection.RiskScoreDataShape` | src/components/AnomalyDetection.js:117-121 | one chart point per result carrying its score and amount; point i is labelled "T" followed by the decimal digits of i + 1, and no two labels are equal |
| `AnomalyDetection.AnomalyCount` | src/components/AnomalyDetection.js:109 | the number of results `isAnomaly` flags never exceeds the number of results |
| `AnomalyDetection.AnomalyCountAppend` | src/components/AnomalyDetection.js:109 | the number of flagged results of two lists put together is the sum of their numbers |
| `AnomalyDetection.AnomalyCountExtremes` | src/components/AnomalyDetection.js:109 | the anomaly count is 0 exactly when no result has `isAnomaly` true, and the number of results exactly when all do |
| `Js.AtMostOrAbove` | src/components/Dashboard.js:53-55 | `<= k` and `> k` are complementary exactly for values that coerce to a number |
| `Firestore.Materialize` | src/components/Dashboard.js:15-22 | a record holds the document's fields plus `id`, and a stored `id` field overrides the document id |
| `Dashboard.Mount` | src/components/Dashboard.js:6-8 | the dashboard starts with empty lists, loading, and both feeds subscribed |
| `Dashboard.SnapshotReplaces` | src/components/Dashboard.js:11-39 | a live snapshot replaces its own list wholesale and leaves the other alone; only an alerts snapshot clears loading |
| `Dashboard.LoadingUntilAlerts` | src/components/Dashboard.js:8-37 | over any event history, loading is true exactly until an alerts snapshot has been delivered while mounted |
| `Dashboard.LastSnapshotWins` | src/components/Dashboard.js:14-22 | the last transactions snapshot delivered while mounted determines the transaction list, whatever alerts snapshots or unmounting follow it |
| `Dashboard.FeedsCommute` | src/components/Dashboard.js:11-39 | a transactions and an alerts snapshot give the same state in either order |
| `Dashboard.TeardownIsFinal` | src/components/Dashboard.js:41-44 | after teardown no later snapshot changes the state |
| `Dashboard.FindAlert` | src/components/Dashboard.js:48 | the alert found is the first whose `transactionId` is `===` to the transaction id; none is found exactly when none matches |
| `Dashboard.ScorePrecedence` | src/components/Dashboard.js:47-50 | a truthy score on the first matching alert wins, then a truthy own score, then the drawn placeholder; a score of 0 counts as absent |
| `Dashboard.AlertScoreDecidesTier` | src/components/Dashboard.js:47-56 | a transaction t1 with an alert for t1 scored 90 is counted as High |
| `Dashboard.TierCountsPartition` | src/components/Dashboard.js:52-56 | with one fixed score per transaction, safe + medium + high equals the number of transactions exactly when every score is numeric |
| `Dashboard.AsWrittenAgreesWithoutPlaceholders` | src/components/Dashboard.js:47-56 | when no transaction falls back to the placeholder, the counts as written equal the one-score-per-transaction counts |
| `Dashboard.AsWrittenCanLoseTransaction` | src/components/Dashboard.js:49-55 | with a redrawn placeholder, one unscored transaction can land in no tier |
| `Dashboard.Percent` | src/components/Dashboard.js:192 | a percentage is 0 with no transactions and within [0, 100] for a count not above the total |
| `Dashboard.FiguresFacts` | src/components/Dashboard.js:58 | with no transactions the rate and the three widths are 0; under a partition the widths sum to 100, and the rate (totalAnomalies = medium + high) equals the medium and high widths together |
| `Settings.InitialIsResetDefaults` | src/components/Settings.js:4-42 | the initial settings equal the defaults restored by reset |
| `Settings.NewValue` | src/components/Settings.js:18-22 | a checkbox stores its checked state; any other input stores `parseFloat(value)` when it is a non-zero number and the raw text otherwise |
| `Settings.HandleChange` | src/components/Settings.js:17-24 | only the named field changes, to the new value, and saved becomes false |
| `Settings.ZeroStaysText` | src/components/Settings.js:21 | entering "0" stores the string "0" |
| `Settings.HandleSave` | src/components/Settings.js:26-28 | the current settings are stored under 'finomaly_settings', other entries are untouched, and saved is set |
| `Settings.SaveIdempotent` | src/components/Settings.js:26-28 | saving twice leaves the same state as saving once |
| `Settings.HandleReset` | src/components/Settings.js:32-45 | reset restores the defaults, removes only 'finomaly_settings', and leaves saved as it was |
| `Settings.ResetThenSaveStoresDefaults` | src/components/Settings.js:26-45 | saving after a reset stores the defaults |
| `Settings.SessionKeepsComplete` | src/components/Settings.js:4-45 | from a state with every default setting, any session of changes, saves and resets keeps every default setting present, so the summary at lines 204-206 can always read both thresholds |
| `Settings.SessionEndingInReset` | src/components/Settings.js:32-45 | whatever a session did before, a final reset leaves exactly the default settings |
| `Settings.PlusOne` | src/components/Settings.js:205-206 | `+ 1` increments a number and appends "1" to text |
| `Settings.BandsPartitionScores` | src/components/Settings.js:204-206 | for whole-number thresholds a ≤ b, each score 0..100 lies in exactly one of the bands 0..a, a+1..b, b+1..100 |
| `Settings.InitialBands` | src/components/Settings.js:204-206 | the starting summary reads 0-50, 51-70, 71-100 |
| `Settings.ThresholdsCanCross` | src/components/Settings.js:17-24 | one edit can put the safe threshold above the medium one, and the bands then overlap |
| `Settings.TextThresholdConcatenates` | src/components/Settings.js:205 | a threshold kept as the text "0" shows a Medium band starting at "01" |
| `Transactions.Step` | src/components/Transactions.js:14-44 | a snapshot replaces the list and clears loading and error; an error sets 'Failed to fetch transactions: ' + message, clears loading, keeps the list and ends the listener; nothing arrives after release |
| `Transactions.ErrorIsFinal` | src/components/Transactions.js:34-38 | once the error callback has run, no later callback changes the state |
| `Transactions.SnapshotShowsItsDocs` | src/components/Transactions.js:16-33 | while the listener is live, a snapshot shows exactly its own documents with no error and no spinner, whatever came before |
| `Transactions.ErrorKeepsRows` | src/components/Transactions.js:34-38 | an error after a snapshot keeps that snapshot's rows |
| `Transactions.Lookup` | src/components/Transactions.js:131-137 | a non-default colour comes from a table entry for the key; a key not in the table gets the default |
| `Transactions.RiskColorIgnoresCase` | src/components/Transactions.js:130-138 | low, medium, high and critical match in any letter case; any other text, or a missing level, is gray |
| `Transactions.StatusColorIgnoresCase` | src/components/Transactions.js:140-147 | completed, pending and flagged match in any letter case; anything else is gray |
| `Transactions.DisplayIdFallback` | src/components/Transactions.js:218 | the row shows a truthy `transactionId`; a missing or falsy one ("", 0, null) falls through to the record's `id`, which is the document id unless the data has its own `id` |
| `Transactions.ReportTotalSums` | src/components/Transactions.js:95 | with numeric or missing amounts the report total is their sum, missing ones as 0 |
| `Transactions.TextAmountSticks` | src/components/Transactions.js:95 | one text amount turns the whole total into text |
| `Transactions.MissingDateShowsPlaceholder` | src/components/Transactions.js:149-150 | a missing, empty or null date is shown as 'N/A' |
| `ServerRules.ClampInRange` | ml_api/app.py:35 | a clamped value lies in range and is unchanged when already inside |
| `ServerRules.ActionRanges` | ml_api/app.py:51-56 | block exactly from 80, review from 60 below 80, allow below 60 |
| `ServerRules.ActionMonotone` | ml_api/app.py:51-56 | a higher risk never gets a milder action |
| `ScoringApi.WithDefaults` | ml_api/app.py:26-31 | missing inputs default to amount 0, user_avg = amount, user_std = max(0.3·user_avg, 1), hours 24, total 1, days 1; each of the six supplied values is kept as it is |
| `ScoringApi.ExtractFeatures` | ml_api/app.py:34-38 | the request fails exactly on a zero deviation; z is (amount − avg)/std when that lies in [-5, 5], and -5 or 5 when it lies below or above; hours are passed through; the rate divides by max(days, 1) |
| `ScoringApi.RiskFromDecision` | ml_api/app.py:48-49 | risk is within [0, 100]; it equals (0.5 − decision)·100 whenever that is in range, is 0 when that is at most 0, and is 100 when that is at least 100 |
| `ScoringApi.RiskAntitoneInDecision` | ml_api/app.py:48-49 | a higher decision value never gives a higher risk |
| `ScoringApi.AnalyzeTransaction` | ml_api/app.py:22-59 | the request fails exactly when user_std is given as 0; otherwise the risk is the clamped risk of the model's decision value, the action follows the ladder, the label is anomaly iff the prediction is −1, and the features are those of the defaulted request |
| `ScoringApi.DefaultDeviationNeverFails` | ml_api/app.py:28 | a request without user_std never divides by zero |
| `ScoringApi.AmountOnlyRequest` | ml_api/app.py:26-38 | a request with only an amount gets the features z = 0, 24 hours and 1 per day |
| `FinomalyApi.FirstMissing` | ML/finomaly/ml_api/app.py:23-27 | no key is reported exactly when all keys are present; a reported key is absent and every key listed before it is present, so it is the key whose `data[key]` raises first |
| `FinomalyApi.Judge` | ML/finomaly/ml_api/app.py:30-43 | the risk from −decision equals the risk `ml_api/app.py` computes from the same decision value, so it lies in [0, 100]; the action follows the ladder, and the label is anomaly iff the prediction is −1 |
| `FinomalyApi.Analyze` | ML/finomaly/ml_api/app.py:19-46 | the request fails exactly when a feature key is missing, and then with `MissingKey` of the first missing key in the order z_score, time_since_last, tx_per_day; otherwise the risk is the clamped (0.5 − decision)·100, the action follows the ladder, and the label is anomaly iff the prediction is −1 |
| `FinomalyApi.RiskAgreesWithScoringApi` | ML/finomaly/ml_api/app.py:31-33 | this app's (−decision + 0.5)·100 clamp equals the other server's risk |
| `FinomalyApi.AnalyzeTransaction` | ML/finomaly/ml_api/app.py:48-81 | success exactly when all six inputs are present and user_std and days_active are non-zero. A missing input fails with `MissingKey` of the first one missing, in the order lines 53-58 read them. With every input present, the only failure is `DivisionByZero`. On success: z·user_std = amount − user_avg; hours are passed through; rate·days = total; the verdict is the one `/analyze` gives for the same model output: the clamped risk, its action, and the label anomaly iff the prediction is −1 |
| `FinomalyApi.ZScoreIsNotClamped` | ML/finomaly/ml_api/app.py:61 | a z-score of 100 reaches the model unclamped |
| `TestApi.ValidationOrder` | test_api.py:29-39 | no data gives 400 'No data provided'; then a missing field gives 400 'Missing required fields'; then no model gives 500 'Model not loaded'; none of these touches the history |
| `TestApi.AcceptedAppendsOne` | test_api.py:42-51 | an accepted request appends exactly one entry (amount, time) to its user's list and leaves every other user's list unchanged |
| `TestApi.ScoringFailureKeepsEntry` | test_api.py:51-100 | when the model raises, the answer is 500 and the new entry stays in the history |
| `TestApi.ConversionFailureLeavesEmptyList` | test_api.py:43-50 | when the amount or timestamp conversion raises, the answer is 500 and a new user is left with an empty list |
| `TestApi.FirstTransactionDefaults` | test_api.py:62-70 | a user's first transaction gets 24 hours, 1 per day and deviation 0 |
| `TestApi.FeaturesOf` | test_api.py:54-73 | deviation·max(avg, 1) = amount − avg; later transactions use the gap to the previous one in hours; rate·max(days + 1, 1) = count |
| `TestApi.Trunc` | test_api.py:84 | `int()` truncates towards zero |
| `TestApi.RiskScoreAntitone` | test_api.py:84 | a higher anomaly score never gives a higher integer risk |
| `TestApi.RiskScoreUnclamped` | test_api.py:84 | for scores in [-0.5, 0.5] the risk is (0.5 − score)·100 truncated; below -0.5 it is 100, and from 0.5 up it is 0 |
| `TestApi.TestAnomaly` | test_api.py:26-97 | an accepted answer needs data with all three required fields and a loaded model and echoes the request's user id; its features are those of the user's grown history, whose newest entry carries the answered amount; its anomaly score and flag are the model's answer for those features; its risk is `RiskScore` of the anomaly score |
| `Pipeline.UniqueFacts` | anomaly_pipeline.py:28 | the user list has no repeats and holds exactly the users with rows |
| `Pipeline.GroupsCoverRows` | anomaly_pipeline.py:28-29 | the per-user groups together hold every row once |
| `Pipeline.EngineerFeaturesLength` | anomaly_pipeline.py:24-49 | feature extraction yields one feature row per input row |
| `Pipeline.FeatureRules` | anomaly_pipeline.py:36-45 | each user's first row gets 24 hours, later rows the gap in hours; the rate divides by max(days, 1) ≥ 1 |
| `Pipeline.ExtremaEqualIffAllEqual` | anomaly_pipeline.py:88-91 | min = max exactly when all scores are equal |
| `Pipeline.RiskOfAntitone` | anomaly_pipeline.py:94-96 | a lower anomaly score never gets a lower risk |
| `Pipeline.RiskOfRange` | anomaly_pipeline.py:94-96 | each converted score lies in [0, 100]; the minimum maps to 100 and the maximum to 0 |
| `Pipeline.ConvertToRiskScores` | anomaly_pipeline.py:86-96 | empty input fails; the loop's result equals the one-line definition `RiskScores`: all-equal scores all become 50, otherwise each score becomes the truncated (1 − (s − min)/(max − min))·100; hence each result is in [0, 100], the minimum maps to 100, the maximum to 0, and the order is reversed |
| `Pipeline.Extrema` | anomaly_pipeline.py:88-89 | the pass over a non-empty score array yields exactly its minimum `MinOf` and maximum `MaxOf` |
| `Pipeline.RisksBetween` | anomaly_pipeline.py:94-96 | element-wise rescaling between distinct bounds: one result per score, each equal to `RiskOf(score, lo, hi)` |
| `Pipeline.FeaturesAlignWithRows` | anomaly_pipeline.py:21-47 | for rows grouped by user, as the sort leaves them, the k-th feature row is row k's own: computed from its user's group at its position there |
| `Pipeline.Predict` | anomaly_pipeline.py:67-84 | without a model or a scaler the result is the 'Model not trained' error, and an empty batch fails; otherwise row k carries the decision value of the k-th feature row, is_anomaly = 1 iff the prediction is −1, and the risk column is the conversion of the whole decision column; for grouped rows, the decision is that of row k's own features |

## Left out

- JSX rendering, Tailwind class strings, dark mode and recharts: presentation only. Colours are reduced to the tier palette.
- Firebase and Firestore I/O: snapshots are given as sequences of documents, and `deleteDoc`, `getDocs` and `addDoc` are not modelled.
- `fetch`, `file.text()`, JSON parsing and Flask plumbing:
  - a batch reply is a datatype: a status flag with a `results` field that is missing, not an array, or an array;
  - a body of `null` or one that does not parse, and every network error, are the `Thrown` case;
  - any other body without a `results` array, such as a number, a string, a boolean or an array, gives 'Invalid response format', the `Missing` case;
  - a JSON body is a map of already-typed values.
- A request body of JSON `null` is not modelled for the two Flask apps. The same goes for a body that is a list, or for values of the wrong JSON type; Python would raise on each.
- localStorage serialisation: storage is an abstract map from keys to settings records. The `setTimeout` that clears the saved notice after three seconds is not modelled.
- `Math.random`, `new Date()`, `pd.to_datetime`, `float()`, `parseFloat` and `Number()`: all are parameters, with no grammar and no randomness.
- IEEE floating point: `round(…, 2)`, `toFixed`, `toLocaleString` and locale date formatting are not modelled, and numbers are exact reals.
- The sequential per-transaction client, the session reset and per-location grouping: no file of this code base implements them.
- `preprocess_data`'s type conversions and its sort by user and time. Rows reach `Pipeline` already preprocessed. What the sort guarantees for the pairing of rows and features, that each user's rows are contiguous, is the predicate `Pipeline.Grouped`.
- The library error an empty batch raises in `scaler.transform`: `Pipeline.Predict` reports it as `EmptyBatch`, without its wording.
- Training, scaling, `decision_function` and `predict`: opaque function values.
- The `/api/health` and `/health` endpoints, and the model-loading code: the loaded model is a parameter.
- Timestamps are whole seconds. Sub-second precision and time zones of `pd.to_datetime` are not modelled.
- Arrays, and objects with a `valueOf` of their own such as Firestore timestamps, as compared values. `Js.Value`'s `Other` is a plain object, which coerces to NaN. A risk score stored as an array such as `[60]` is counted in a tier by the dashboard, but is not a value of the model.
- Letter case beyond ASCII: `Text.ToLower` changes only A–Z.
- TestApi.Body: request fields are text, so a JSON `user_id` of `42` and one of `"42"` fall on the same history key. Python keys `user_history` by the decoded JSON value, which keeps the two apart; the model does not distinguish JSON types.
- TestApi.TestAnomaly: its contract covers the accepted case only. The error cases are stated by `TestApi.ValidationOrder`, `TestApi.ScoringFailureKeepsEntry` and `TestApi.ConversionFailureLeavesEmptyList`.

## Findings

| source | as written | input that shows it | evidently intended | confidence | as-written member | corrected member |
|---|---|---|---|---|---|---|
| src/components/Dashboard.js:47-56 | each tier filter calls `getRiskScore` again, and an unscored transaction gets a fresh random placeholder at every call, so the three counts need not add up to the number of transactions | one transaction with no score and no alert, with placeholder draws 60 in the safe filter, 40 at the first call of the medium filter (the `&&` stops there) and 40 in the high filter: it is counted in no tier | one score per transaction, fixed before the three filters, so the tiers partition the transactions | high; not executed | `Dashboard.AsWrittenCanLoseTransaction` | `Dashboard.TierCountsPartition` |
