/**
 * The dashboard of `src/components/Dashboard.js`: two live snapshot feeds
 * (transactions and anomaly alerts) that each replace a local list, the
 * loading flag only the alerts feed clears, the score each transaction is
 * shown with, and the tier counts and percentages derived from those
 * scores.
 */
module Dashboard {
  import opened Js
  import opened Wrappers
  import opened Firestore
  import Tiers

  // ---------------------------------------------------------------------------
  // Subscriptions

  datatype Feed = TransactionsFeed | AlertsFeed

  /** The component's state; `live` holds the feeds still subscribed. */
  datatype State = State(transactions: seq<Record>, alerts: seq<Record>, loading: bool, live: set<Feed>)

  /** Mounting: empty lists, loading, and both feeds subscribed. */
  function Mount(): (st: State)
    ensures st.loading && st.transactions == [] && st.alerts == []
    ensures st.live == {TransactionsFeed, AlertsFeed}
  {
    State([], [], true, {TransactionsFeed, AlertsFeed})
  }

  /**
   * There is no error event: the two `onSnapshot` calls pass no error
   * callback, so a failed feed is silent and just never delivers again,
   * which a history without later snapshots of that feed already covers
   * (for the alerts feed, loading then stays true).
   */
  datatype Event = Snapshot(feed: Feed, docs: seq<Doc>) | Unmount

  /** One delivered event. A snapshot of a feed that was unsubscribed is never delivered. */
  function Step(st: State, e: Event): State {
    match e
    case Unmount => st.(live := {})
    case Snapshot(f, docs) =>
      if f !in st.live then st
      else if f == TransactionsFeed then st.(transactions := MaterializeAll(docs))
      else st.(alerts := MaterializeAll(docs), loading := false)
  }

  function Replay(st: State, events: seq<Event>): State {
    if |events| == 0 then st else Step(Replay(st, events[..|events| - 1]), events[|events| - 1])
  }

  /** A live snapshot replaces its own list wholesale and leaves the other list alone. */
  lemma SnapshotReplaces(st: State, f: Feed, docs: seq<Doc>)
    requires f in st.live
    ensures var st' := Step(st, Snapshot(f, docs));
      && (f == TransactionsFeed ==> st'.transactions == MaterializeAll(docs) && st'.alerts == st.alerts && st'.loading == st.loading)
      && (f == AlertsFeed ==> st'.alerts == MaterializeAll(docs) && st'.transactions == st.transactions && !st'.loading)
      && st'.live == st.live
  {
  }

  /** The two feeds' snapshots commute. */
  lemma FeedsCommute(st: State, a: seq<Doc>, b: seq<Doc>)
    ensures Step(Step(st, Snapshot(TransactionsFeed, a)), Snapshot(AlertsFeed, b))
         == Step(Step(st, Snapshot(AlertsFeed, b)), Snapshot(TransactionsFeed, a))
  {
  }

  /** No event before position `i` unsubscribed the feeds. */
  predicate MountedAt(events: seq<Event>, i: nat)
    requires i <= |events|
  {
    forall j :: 0 <= j < i ==> !events[j].Unmount?
  }

  /** Some alerts snapshot arrived while the component was mounted. */
  predicate AlertsDelivered(events: seq<Event>) {
    exists i :: 0 <= i < |events| && events[i].Snapshot? && events[i].feed == AlertsFeed && MountedAt(events, i)
  }

  lemma {:induction false} ReplayLive(events: seq<Event>)
    ensures Replay(Mount(), events).live == if MountedAt(events, |events|) then Mount().live else {}
  {
    if |events| > 0 {
      ReplayLive(events[..|events| - 1]);
    }
  }

  /** `loading` stays true until, and only until, an alerts snapshot is delivered; transactions never clear it. */
  lemma {:induction false} LoadingUntilAlerts(events: seq<Event>)
    ensures Replay(Mount(), events).loading <==> !AlertsDelivered(events)
  {
    if |events| > 0 {
      var init := events[..|events| - 1];
      var e := events[|events| - 1];
      LoadingUntilAlerts(init);
      ReplayLive(init);
      if AlertsDelivered(init) {
        var i :| 0 <= i < |init| && init[i].Snapshot? && init[i].feed == AlertsFeed && MountedAt(init, i);
        assert events[i] == init[i] && MountedAt(events, i);
      }
      if AlertsDelivered(events) {
        var i :| 0 <= i < |events| && events[i].Snapshot? && events[i].feed == AlertsFeed && MountedAt(events, i);
        if i < |init| {
          assert init[i] == events[i] && MountedAt(init, i);
        } else {
          assert MountedAt(init, |init|);
        }
      }
      if e.Snapshot? && e.feed == AlertsFeed && MountedAt(init, |init|) {
        assert MountedAt(events, |init|);
      }
    }
  }

  /** After teardown no snapshot changes the state any more. */
  lemma {:induction false} TeardownIsFinal(st: State, later: seq<Event>)
    ensures Replay(Step(st, Unmount), later) == Step(st, Unmount)
  {
    if |later| > 0 {
      TeardownIsFinal(st, later[..|later| - 1]);
    }
  }

  /** Replaying a concatenation replays the second part from where the first ended. */
  lemma {:induction false} ReplayAppend(st: State, a: seq<Event>, b: seq<Event>)
    ensures Replay(st, a + b) == Replay(Replay(st, a), b)
    decreases |b|
  {
    if |b| == 0 {
      assert a + b == a;
    } else {
      assert (a + b)[..|a + b| - 1] == a + b[..|b| - 1];
      ReplayAppend(st, a, b[..|b| - 1]);
    }
  }

  /** Events that leave the transaction list alone: alerts snapshots and unmounting. */
  lemma {:induction false} AlertsKeepTransactions(st: State, events: seq<Event>)
    requires forall j :: 0 <= j < |events| ==> events[j].Unmount? || (events[j].Snapshot? && events[j].feed == AlertsFeed)
    ensures Replay(st, events).transactions == st.transactions
    ensures Replay(st, events).live <= st.live
    ensures (forall j :: 0 <= j < |events| ==> events[j].Snapshot?) ==> Replay(st, events).live == st.live
  {
    if |events| > 0 {
      AlertsKeepTransactions(st, events[..|events| - 1]);
    }
  }

  /** The last transactions snapshot delivered while mounted determines the transaction list, also after unmounting. */
  lemma LastSnapshotWins(events: seq<Event>, i: nat)
    requires i < |events| && events[i].Snapshot? && events[i].feed == TransactionsFeed
    requires MountedAt(events, i)
    requires forall j :: i < j < |events| ==> events[j].Unmount? || (events[j].Snapshot? && events[j].feed == AlertsFeed)
    ensures Replay(Mount(), events).transactions == MaterializeAll(events[i].docs)
  {
    var before := events[..i];
    var after := events[i + 1..];
    assert events == before + [events[i]] + after;
    assert MountedAt(before, |before|);
    ReplayLive(before);
    ReplayAppend(Mount(), before + [events[i]], after);
    assert (before + [events[i]])[..i] == before;
    AlertsKeepTransactions(Replay(Mount(), before + [events[i]]), after);
  }

  // ---------------------------------------------------------------------------
  // The score shown for a transaction

  predicate Matches(alert: Record, tx: Record) {
    StrictEquals(Get(alert, "transactionId"), Get(tx, "id"))
  }

  /** `anomalyAlerts.find(...)`: the first alert joined to the transaction, if any. */
  function FindAlert(alerts: seq<Record>, tx: Record): (r: Option<nat>)
    ensures r.None? <==> forall i :: 0 <= i < |alerts| ==> !Matches(alerts[i], tx)
    ensures r.Some? ==>
      && r.value < |alerts| && Matches(alerts[r.value], tx)
      && (forall i :: 0 <= i < r.value ==> !Matches(alerts[i], tx))
  {
    if |alerts| == 0 then None
    else if Matches(alerts[0], tx) then Some(0)
    else match FindAlert(alerts[1..], tx)
      case None => None
      case Some(k) => Some(k + 1)
  }

  /** `getRiskScore`: `alert?.riskScore || transaction.riskScore || draw`. */
  function ScoreOf(alerts: seq<Record>, tx: Record, draw: int): Value {
    var fromAlert := match FindAlert(alerts, tx) case Some(k) => Get(alerts[k], "riskScore") case None => Undefined;
    Or(Or(fromAlert, Get(tx, "riskScore")), Num(draw as real))
  }

  /**
   * Only the first matching alert is consulted: its truthy score wins;
   * otherwise the transaction's own truthy score; otherwise the draw. A
   * score of 0 counts as absent.
   */
  lemma ScorePrecedence(alerts: seq<Record>, tx: Record, draw: int)
    ensures var k := FindAlert(alerts, tx);
      var s := ScoreOf(alerts, tx, draw);
      && (k.Some? && Truthy(Get(alerts[k.value], "riskScore")) ==> s == Get(alerts[k.value], "riskScore"))
      && ((k.None? || !Truthy(Get(alerts[k.value], "riskScore"))) && Truthy(Get(tx, "riskScore")) ==> s == Get(tx, "riskScore"))
      && ((k.None? || !Truthy(Get(alerts[k.value], "riskScore"))) && !Truthy(Get(tx, "riskScore")) ==> s == Num(draw as real))
  {
  }

  /** A transaction that needs no placeholder shows the same score whatever is drawn. */
  predicate HasScore(alerts: seq<Record>, tx: Record) {
    Truthy(Or(match FindAlert(alerts, tx) case Some(k) => Get(alerts[k], "riskScore") case None => Undefined,
              Get(tx, "riskScore")))
  }

  lemma ScoreIndependentOfDraw(alerts: seq<Record>, tx: Record, a: int, b: int)
    requires HasScore(alerts, tx)
    ensures ScoreOf(alerts, tx, a) == ScoreOf(alerts, tx, b)
  {
  }

  function EffectiveScores(alerts: seq<Record>, txs: seq<Record>, draws: seq<int>): (vs: seq<Value>)
    requires |draws| == |txs|
    ensures |vs| == |txs|
    ensures forall k :: 0 <= k < |txs| ==> vs[k] == ScoreOf(alerts, txs[k], draws[k])
  {
    seq(|txs|, k requires 0 <= k < |txs| => ScoreOf(alerts, txs[k], draws[k]))
  }

  // ---------------------------------------------------------------------------
  // Tier counts

  datatype RiskCounts = RiskCounts(safe: nat, medium: nat, high: nat)

  function CountAtMost(vs: seq<Value>, k: real, s2n: StrToNum): (n: nat)
    ensures n <= |vs|
  {
    if |vs| == 0 then 0 else CountAtMost(vs[..|vs| - 1], k, s2n) + (if AtMost(vs[|vs| - 1], k, s2n) then 1 else 0)
  }

  function CountAbove(vs: seq<Value>, k: real, s2n: StrToNum): (n: nat)
    ensures n <= |vs|
  {
    if |vs| == 0 then 0 else CountAbove(vs[..|vs| - 1], k, s2n) + (if Above(vs[|vs| - 1], k, s2n) then 1 else 0)
  }

  /** The medium filter: its two comparisons each call `getRiskScore` again, so each reads its own value. */
  function CountBetween(lows: seq<Value>, highs: seq<Value>, s2n: StrToNum): (n: nat)
    requires |lows| == |highs|
    ensures n <= |lows|
  {
    if |lows| == 0 then 0
    else
      var n := |lows| - 1;
      CountBetween(lows[..n], highs[..n], s2n)
        + (if Above(lows[n], Tiers.SafeLimit, s2n) && AtMost(highs[n], Tiers.MediumLimit, s2n) then 1 else 0)
  }

  function CountNumeric(vs: seq<Value>, s2n: StrToNum): (n: nat)
    ensures n <= |vs|
  {
    if |vs| == 0 then 0 else CountNumeric(vs[..|vs| - 1], s2n) + (if ToNumber(vs[|vs| - 1], s2n).Some? then 1 else 0)
  }

  predicate AllNumeric(vs: seq<Value>, s2n: StrToNum) {
    forall k :: 0 <= k < |vs| ==> ToNumber(vs[k], s2n).Some?
  }

  lemma {:induction false} CountNumericAll(vs: seq<Value>, s2n: StrToNum)
    ensures CountNumeric(vs, s2n) == |vs| <==> AllNumeric(vs, s2n)
  {
    if |vs| > 0 {
      var init := vs[..|vs| - 1];
      CountNumericAll(init, s2n);
      if AllNumeric(vs, s2n) {
        assert forall k :: 0 <= k < |init| ==> init[k] == vs[k];
      }
      if CountNumeric(vs, s2n) == |vs| {
        assert CountNumeric(init, s2n) == |init| && ToNumber(vs[|vs| - 1], s2n).Some?;
        assert forall k :: 0 <= k < |init| ==> init[k] == vs[k];
      }
    }
  }

  /** Counting one list of values into the three tiers counts each value that coerces to a number exactly once. */
  lemma {:induction false} TierCountsCountNumeric(vs: seq<Value>, s2n: StrToNum)
    ensures CountAtMost(vs, Tiers.SafeLimit, s2n) + CountBetween(vs, vs, s2n) + CountAbove(vs, Tiers.MediumLimit, s2n)
         == CountNumeric(vs, s2n)
  {
    if |vs| > 0 {
      TierCountsCountNumeric(vs[..|vs| - 1], s2n);
    }
  }

  /** `riskCounts` with one score per transaction. */
  function TierCounts(alerts: seq<Record>, txs: seq<Record>, draws: seq<int>, s2n: StrToNum): RiskCounts
    requires |draws| == |txs|
  {
    var vs := EffectiveScores(alerts, txs, draws);
    RiskCounts(CountAtMost(vs, Tiers.SafeLimit, s2n), CountBetween(vs, vs, s2n), CountAbove(vs, Tiers.MediumLimit, s2n))
  }

  /** With one score per transaction the counts partition the transactions exactly when every score is numeric. */
  lemma TierCountsPartition(alerts: seq<Record>, txs: seq<Record>, draws: seq<int>, s2n: StrToNum)
    requires |draws| == |txs|
    ensures var c := TierCounts(alerts, txs, draws, s2n);
      c.safe + c.medium + c.high == |txs| <==> AllNumeric(EffectiveScores(alerts, txs, draws), s2n)
  {
    var vs := EffectiveScores(alerts, txs, draws);
    TierCountsCountNumeric(vs, s2n);
    CountNumericAll(vs, s2n);
  }

  /** The placeholder `Math.floor(Math.random() * 100)` drawn at each of the four filter call sites. */
  datatype Draws = Draws(safe: seq<int>, mediumLow: seq<int>, mediumHigh: seq<int>, high: seq<int>)

  predicate DrawsFor(d: Draws, txs: seq<Record>) {
    |d.safe| == |txs| && |d.mediumLow| == |txs| && |d.mediumHigh| == |txs| && |d.high| == |txs|
  }

  /** `riskCounts` as written: every `getRiskScore` call may draw a fresh placeholder. */
  function CountsAsWritten(alerts: seq<Record>, txs: seq<Record>, d: Draws, s2n: StrToNum): RiskCounts
    requires DrawsFor(d, txs)
  {
    RiskCounts(
      CountAtMost(EffectiveScores(alerts, txs, d.safe), Tiers.SafeLimit, s2n),
      CountBetween(EffectiveScores(alerts, txs, d.mediumLow), EffectiveScores(alerts, txs, d.mediumHigh), s2n),
      CountAbove(EffectiveScores(alerts, txs, d.high), Tiers.MediumLimit, s2n))
  }

  lemma EffectiveScoresIgnoreDraws(alerts: seq<Record>, txs: seq<Record>, a: seq<int>, b: seq<int>)
    requires |a| == |txs| && |b| == |txs|
    requires forall k :: 0 <= k < |txs| ==> HasScore(alerts, txs[k])
    ensures EffectiveScores(alerts, txs, a) == EffectiveScores(alerts, txs, b)
  {
    forall k | 0 <= k < |txs| ensures ScoreOf(alerts, txs[k], a[k]) == ScoreOf(alerts, txs[k], b[k]) {
      ScoreIndependentOfDraw(alerts, txs[k], a[k], b[k]);
    }
  }

  /** When no transaction falls back to the placeholder, the counts as written equal the corrected ones. */
  lemma AsWrittenAgreesWithoutPlaceholders(alerts: seq<Record>, txs: seq<Record>, d: Draws, s2n: StrToNum)
    requires DrawsFor(d, txs)
    requires forall k :: 0 <= k < |txs| ==> HasScore(alerts, txs[k])
    ensures CountsAsWritten(alerts, txs, d, s2n) == TierCounts(alerts, txs, d.safe, s2n)
  {
    EffectiveScoresIgnoreDraws(alerts, txs, d.mediumLow, d.safe);
    EffectiveScoresIgnoreDraws(alerts, txs, d.mediumHigh, d.safe);
    EffectiveScoresIgnoreDraws(alerts, txs, d.high, d.safe);
  }

  /** One unscored transaction whose four draws are 60, 40, 40, 40 lands in no tier at all. */
  lemma AsWrittenCanLoseTransaction(s2n: StrToNum)
    ensures var txs := [map["id" := Str("t1")]];
      var c := CountsAsWritten([], txs, Draws([60], [40], [40], [40]), s2n);
      c.safe + c.medium + c.high == 0 && |txs| == 1
  {
    var txs := [map["id" := Str("t1")]];
    assert FindAlert([], txs[0]).None?;
    assert ScoreOf([], txs[0], 60) == Num(60.0);
    assert ScoreOf([], txs[0], 40) == Num(40.0);
    assert EffectiveScores([], txs, [60]) == [Num(60.0)];
    assert EffectiveScores([], txs, [40]) == [Num(40.0)];
    assert [Num(60.0)][..0] == [];
    assert [Num(40.0)][..0] == [];
  }

  /** An alert joined to a transaction decides its tier: a score of 90 makes it High. */
  lemma AlertScoreDecidesTier(s2n: StrToNum, draw: int)
    ensures var tx := map["id" := Str("t1")];
      var alert := map["id" := Str("a1"), "transactionId" := Str("t1"), "riskScore" := Num(90.0)];
      var c := TierCounts([alert], [tx], [draw], s2n);
      c == RiskCounts(0, 0, 1)
  {
    var tx := map["id" := Str("t1")];
    var alert := map["id" := Str("a1"), "transactionId" := Str("t1"), "riskScore" := Num(90.0)];
    assert Matches(alert, tx);
    assert ScoreOf([alert], tx, draw) == Num(90.0);
    assert EffectiveScores([alert], [tx], [draw]) == [Num(90.0)];
    assert [Num(90.0)][..0] == [];
  }

  // ---------------------------------------------------------------------------
  // Derived figures

  /** `totalAnomalies`: Medium and High both count as anomalies. */
  function TotalAnomalies(c: RiskCounts): nat {
    c.medium + c.high
  }

  /** A count as a percentage of `n`, or 0 when there are no transactions. */
  function Percent(count: nat, n: nat): (p: real)
    ensures n == 0 ==> p == 0.0
    ensures n > 0 && count <= n ==> 0.0 <= p <= 100.0
  {
    if n > 0 then (count as real / n as real) * 100.0 else 0.0
  }

  /** The detection rate and the three bar widths. */
  datatype Figures = Figures(rate: real, safeWidth: real, mediumWidth: real, highWidth: real)

  function FiguresOf(c: RiskCounts, n: nat): Figures {
    Figures(Percent(TotalAnomalies(c), n), Percent(c.safe, n), Percent(c.medium, n), Percent(c.high, n))
  }

  /** Fractions over a common positive denominator add by their numerators. */
  lemma AddQuotients(p: real, q: real, d: real)
    requires d > 0.0
    ensures p / d + q / d == (p + q) / d
  {
    var x, y := p / d, q / d;
    assert x * d == p;
    assert y * d == q;
    assert (x + y) * d == p + q;
  }

  lemma DivSelf(d: real)
    requires d > 0.0
    ensures d / d == 1.0
  {
  }

  /** With no transactions every figure is 0; when the counts partition them, the widths fill the bar and the rate is the share of the two upper tiers. */
  lemma FiguresFacts(c: RiskCounts, n: nat)
    ensures n == 0 ==> FiguresOf(c, n) == Figures(0.0, 0.0, 0.0, 0.0)
    ensures n > 0 && c.safe + c.medium + c.high == n ==>
      var f := FiguresOf(c, n);
      && f.safeWidth + f.mediumWidth + f.highWidth == 100.0
      && f.rate == f.mediumWidth + f.highWidth
      && 0.0 <= f.rate <= 100.0
  {
    if n > 0 && c.safe + c.medium + c.high == n {
      var d := n as real;
      var s, m, h := c.safe as real, c.medium as real, c.high as real;
      AddQuotients(m, h, d);
      AddQuotients(s, m + h, d);
      assert s + (m + h) == d;
      DivSelf(d);
      assert s / d + m / d + h / d == 1.0;
      assert (s / d) * 100.0 + (m / d) * 100.0 + (h / d) * 100.0 == (s / d + m / d + h / d) * 100.0;
      assert TotalAnomalies(c) as real == m + h;
    }
  }
}
