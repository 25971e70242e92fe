/**
 * The batch detector of `anomaly_pipeline.py`: the per-user feature
 * extraction, the guard that refuses to predict before training, and the
 * min-max conversion of decision values into 0-100 risk scores. The
 * scaler and the isolation forest are opaque function values.
 */
module Pipeline {
  import opened Wrappers
  import opened ServerRules

  /** A preprocessed transaction; `time` is in seconds. */
  datatype Row = Row(userId: string, amount: real, time: int)

  datatype FeatureRow = FeatureRow(amountDeviation: real, timeSinceLast: real, txPerDay: real)

  datatype Model = Model(decision: FeatureRow -> real, predict: FeatureRow -> int)

  /** `model` and `scaler` stay `None` until `train` or `load_model` sets them. */
  datatype Detector = Detector(model: Option<Model>, scaler: Option<FeatureRow -> FeatureRow>)

  datatype Prediction = Prediction(row: Row, anomalyScore: real, isAnomaly: int, riskScore: int)

  const EmptyReductionMessage := "zero-size array to reduction operation minimum which has no identity"

  // ---------------------------------------------------------------------------
  // Grouping by user

  /** The rows of one user, in their original order. */
  function Filter(rows: seq<Row>, u: string): (g: seq<Row>)
    ensures |g| <= |rows|
    ensures forall k :: 0 <= k < |g| ==> g[k].userId == u
  {
    if |rows| == 0 then []
    else Filter(rows[..|rows| - 1], u) + (if rows[|rows| - 1].userId == u then [rows[|rows| - 1]] else [])
  }

  /** `df['user_id'].unique()`: each user id once, in order of first appearance. */
  function Unique(rows: seq<Row>): seq<string> {
    if |rows| == 0 then []
    else
      var us := Unique(rows[..|rows| - 1]);
      var v := rows[|rows| - 1].userId;
      if v in us then us else us + [v]
  }

  predicate Distinct(us: seq<string>) {
    forall i, j :: 0 <= i < j < |us| ==> us[i] != us[j]
  }

  lemma {:induction false} UniqueFacts(rows: seq<Row>)
    ensures Distinct(Unique(rows))
    ensures forall u :: u in Unique(rows) <==> exists k :: 0 <= k < |rows| && rows[k].userId == u
  {
    if |rows| > 0 {
      var init := rows[..|rows| - 1];
      UniqueFacts(init);
      forall u ensures u in Unique(rows) <==> exists k :: 0 <= k < |rows| && rows[k].userId == u {
        if exists k :: 0 <= k < |init| && init[k].userId == u {
          var k :| 0 <= k < |init| && init[k].userId == u;
          assert rows[k].userId == u;
        }
        if exists k :: 0 <= k < |rows| && rows[k].userId == u {
          var k :| 0 <= k < |rows| && rows[k].userId == u;
          if k < |init| { assert init[k].userId == u; }
        }
      }
    }
  }

  /** A user with no row has an empty group. */
  lemma {:induction false} FilterAbsent(rows: seq<Row>, u: string)
    requires forall k :: 0 <= k < |rows| ==> rows[k].userId != u
    ensures Filter(rows, u) == []
  {
    if |rows| > 0 {
      FilterAbsent(rows[..|rows| - 1], u);
    }
  }

  /** The number of rows the groups of `us` hold together. */
  function GroupSizes(us: seq<string>, rows: seq<Row>): nat {
    if |us| == 0 then 0 else GroupSizes(us[..|us| - 1], rows) + |Filter(rows, us[|us| - 1])|
  }

  lemma {:induction false} GroupSizesSnoc(us: seq<string>, rows: seq<Row>, r: Row)
    requires Distinct(us)
    ensures GroupSizes(us, rows + [r]) == GroupSizes(us, rows) + (if r.userId in us then 1 else 0)
  {
    if |us| > 0 {
      var init := us[..|us| - 1];
      assert Distinct(init);
      GroupSizesSnoc(init, rows, r);
      assert (rows + [r])[..|rows|] == rows;
      assert r.userId in us <==> r.userId in init || r.userId == us[|us| - 1];
    }
  }

  /** The groups of the distinct users partition the rows. */
  lemma {:induction false} GroupsCoverRows(rows: seq<Row>)
    ensures GroupSizes(Unique(rows), rows) == |rows|
  {
    if |rows| > 0 {
      var init := rows[..|rows| - 1];
      var r := rows[|rows| - 1];
      assert rows == init + [r];
      GroupsCoverRows(init);
      UniqueFacts(init);
      var us := Unique(init);
      GroupSizesSnoc(us, init, r);
      if r.userId !in us {
        assert Unique(rows) == us + [r.userId];
        assert (us + [r.userId])[..|us|] == us;
        FilterAbsent(init, r.userId);
        assert Filter(rows, r.userId) == [r];
      }
    }
  }

  // ---------------------------------------------------------------------------
  // Features

  function SumAmounts(g: seq<Row>): real {
    if |g| == 0 then 0.0 else SumAmounts(g[..|g| - 1]) + g[|g| - 1].amount
  }

  function MaxTime(g: seq<Row>): int
    requires |g| > 0
  {
    if |g| == 1 then g[0].time
    else var m := MaxTime(g[..|g| - 1]); if g[|g| - 1].time > m then g[|g| - 1].time else m
  }

  function MinTime(g: seq<Row>): int
    requires |g| > 0
  {
    if |g| == 1 then g[0].time
    else var m := MinTime(g[..|g| - 1]); if g[|g| - 1].time < m then g[|g| - 1].time else m
  }

  /** `(max - min).days + 1` of a user's timestamps; `timedelta.days` rounds down. */
  function ActiveDays(g: seq<Row>): int
    requires |g| > 0
  {
    (MaxTime(g) - MinTime(g)) / 86400 + 1
  }

  /** The features of the `k`-th transaction of one user's group. */
  function FeatureAt(g: seq<Row>, k: nat): FeatureRow
    requires k < |g|
  {
    var avg := SumAmounts(g) / (|g| as real);
    var deviation := (g[k].amount - avg) / Max(avg, 1.0);
    var sinceLast := if k == 0 then 24.0 else (g[k].time - g[k - 1].time) as real / 3600.0;
    FeatureRow(deviation, sinceLast, |g| as real / Max(ActiveDays(g) as real, 1.0))
  }

  /** The feature rows of one user's group, one per transaction. */
  function UserFeatures(g: seq<Row>): (fs: seq<FeatureRow>)
    ensures |fs| == |g|
    ensures forall k :: 0 <= k < |g| ==> fs[k] == FeatureAt(g, k)
  {
    seq(|g|, k requires 0 <= k < |g| => FeatureAt(g, k))
  }

  /** The first transaction of every user gets 24 hours; the rate's divisor is at least one day. */
  lemma FeatureRules(g: seq<Row>, k: nat)
    requires k < |g|
    ensures k == 0 ==> FeatureAt(g, k).timeSinceLast == 24.0
    ensures k > 0 ==> FeatureAt(g, k).timeSinceLast * 3600.0 == (g[k].time - g[k - 1].time) as real
    ensures FeatureAt(g, k).txPerDay * Max(ActiveDays(g) as real, 1.0) == |g| as real
    ensures Max(ActiveDays(g) as real, 1.0) >= 1.0
  {
  }

  function FeaturesFor(us: seq<string>, rows: seq<Row>): seq<FeatureRow> {
    if |us| == 0 then [] else FeaturesFor(us[..|us| - 1], rows) + UserFeatures(Filter(rows, us[|us| - 1]))
  }

  lemma {:induction false} FeaturesForLength(us: seq<string>, rows: seq<Row>)
    ensures |FeaturesFor(us, rows)| == GroupSizes(us, rows)
  {
    if |us| > 0 {
      FeaturesForLength(us[..|us| - 1], rows);
    }
  }

  /** `engineer_features`: the groups' features, user by user in order of first appearance. */
  function EngineerFeatures(rows: seq<Row>): seq<FeatureRow> {
    FeaturesFor(Unique(rows), rows)
  }

  /** There is one feature row per input row. */
  lemma EngineerFeaturesLength(rows: seq<Row>)
    ensures |EngineerFeatures(rows)| == |rows|
  {
    FeaturesForLength(Unique(rows), rows);
    GroupsCoverRows(rows);
  }

  // ---------------------------------------------------------------------------
  // Row alignment

  /**
   * Rows whose users form contiguous blocks, as the sort by user id and
   * timestamp in `preprocess_data` leaves them.
   */
  predicate Grouped(rows: seq<Row>) {
    forall i, j, k :: 0 <= i < j < k < |rows| && rows[i].userId == rows[k].userId ==> rows[j].userId == rows[i].userId
  }

  /** The groups of `us`, one after the other: the row order `engineer_features` emits. */
  function Regroup(us: seq<string>, rows: seq<Row>): seq<Row> {
    if |us| == 0 then [] else Regroup(us[..|us| - 1], rows) + Filter(rows, us[|us| - 1])
  }

  /** The position of row `k` among the rows of its own user. */
  function Rank(rows: seq<Row>, k: nat): nat
    requires k < |rows|
  {
    |Filter(rows[..k], rows[k].userId)|
  }

  lemma {:induction false} FilterAppend(a: seq<Row>, b: seq<Row>, u: string)
    ensures Filter(a + b, u) == Filter(a, u) + Filter(b, u)
    decreases |b|
  {
    if |b| > 0 {
      var n := |b| - 1;
      assert (a + b)[..|a + b| - 1] == a + b[..n];
      assert (a + b)[|a + b| - 1] == b[n];
      FilterAppend(a, b[..n], u);
    } else {
      assert a + b == a;
    }
  }

  lemma {:induction false} FilterAll(g: seq<Row>, u: string)
    requires forall k :: 0 <= k < |g| ==> g[k].userId == u
    ensures Filter(g, u) == g
  {
    if |g| > 0 {
      FilterAll(g[..|g| - 1], u);
    }
  }

  /** Row `k` lies inside its user's group, at position `Rank(rows, k)`. */
  lemma RankInGroup(rows: seq<Row>, k: nat)
    requires k < |rows|
    ensures Rank(rows, k) < |Filter(rows, rows[k].userId)|
    ensures Filter(rows, rows[k].userId)[Rank(rows, k)] == rows[k]
  {
    var u := rows[k].userId;
    assert rows[..k + 1][..k] == rows[..k];
    assert Filter(rows[..k + 1], u) == Filter(rows[..k], u) + [rows[k]];
    assert rows == rows[..k + 1] + rows[k + 1..];
    FilterAppend(rows[..k + 1], rows[k + 1..], u);
  }

  /** Every row of `Regroup(us, rows)` belongs to a user of `us`. */
  lemma {:induction false} RegroupUsers(us: seq<string>, rows: seq<Row>)
    ensures forall p :: 0 <= p < |Regroup(us, rows)| ==> Regroup(us, rows)[p].userId in us
  {
    if |us| > 0 {
      var init := us[..|us| - 1];
      RegroupUsers(init, rows);
      var a: seq<Row>, b: seq<Row> := Regroup(init, rows), Filter(rows, us[|us| - 1]);
      forall p | 0 <= p < |a + b|
        ensures (a + b)[p].userId in us
      {
        if p < |a| {
          assert (a + b)[p] == a[p];
          assert a[p].userId in init;
        } else {
          assert (a + b)[p] == b[p - |a|];
        }
      }
    }
  }

  /** Ranks before the end of a prefix are the prefix's own. */
  lemma RankInPrefix(a: seq<Row>, g: seq<Row>, p: nat)
    requires p < |a|
    ensures (a + g)[p] == a[p] && Rank(a + g, p) == Rank(a, p)
  {
    assert (a + g)[..p] == a[..p];
  }

  /** After a prefix with none of `v`'s rows, the rank of a row of `v`'s block is its offset in the block. */
  lemma RankInLastGroup(a: seq<Row>, g: seq<Row>, v: string, q: nat)
    requires forall t :: 0 <= t < |a| ==> a[t].userId != v
    requires forall t :: 0 <= t < |g| ==> g[t].userId == v
    requires q < |g|
    ensures (a + g)[|a| + q] == g[q] && Rank(a + g, |a| + q) == q
  {
    var c := a + g;
    assert c[..|a| + q] == a + g[..q];
    FilterAppend(a, g[..q], v);
    FilterAbsent(a, v);
    FilterAll(g[..q], v);
  }

  /** Entry `p` of `fs` is the feature row of row `c[p]` within its user's group. */
  predicate EntryMatches(c: seq<Row>, fs: seq<FeatureRow>, rows: seq<Row>, p: nat)
    requires p < |c| && p < |fs|
  {
    Rank(c, p) < |Filter(rows, c[p].userId)| && fs[p] == FeatureAt(Filter(rows, c[p].userId), Rank(c, p))
  }

  lemma PrefixEntries(a: seq<Row>, g: seq<Row>, fa: seq<FeatureRow>, fg: seq<FeatureRow>, rows: seq<Row>)
    requires |fa| == |a|
    requires forall p :: 0 <= p < |a| ==> EntryMatches(a, fa, rows, p)
    ensures forall p :: 0 <= p < |a| ==> EntryMatches(a + g, fa + fg, rows, p)
  {
    forall p | 0 <= p < |a|
      ensures EntryMatches(a + g, fa + fg, rows, p)
    {
      RankInPrefix(a, g, p);
      assert (fa + fg)[p] == fa[p];
      assert EntryMatches(a, fa, rows, p);
    }
  }

  lemma LastEntries(a: seq<Row>, g: seq<Row>, fa: seq<FeatureRow>, rows: seq<Row>, v: string)
    requires |fa| == |a| && g == Filter(rows, v)
    requires forall t :: 0 <= t < |a| ==> a[t].userId != v
    ensures forall p :: |a| <= p < |a| + |g| ==> EntryMatches(a + g, fa + UserFeatures(g), rows, p)
  {
    var fg := UserFeatures(g);
    forall p | |a| <= p < |a| + |g|
      ensures EntryMatches(a + g, fa + fg, rows, p)
    {
      RankInLastGroup(a, g, v, p - |a|);
      assert (fa + fg)[p] == fg[p - |a|];
    }
  }

  /** The feature rows line up with the regrouped rows, entry by entry. */
  lemma {:induction false} FeaturesFollowRegroup(us: seq<string>, rows: seq<Row>)
    requires Distinct(us)
    ensures |FeaturesFor(us, rows)| == |Regroup(us, rows)|
    ensures forall p :: 0 <= p < |Regroup(us, rows)| ==> EntryMatches(Regroup(us, rows), FeaturesFor(us, rows), rows, p)
  {
    if |us| > 0 {
      var init, v := us[..|us| - 1], us[|us| - 1];
      assert Distinct(init);
      FeaturesFollowRegroup(init, rows);
      RegroupUsers(init, rows);
      var a: seq<Row>, g: seq<Row> := Regroup(init, rows), Filter(rows, v);
      var fa := FeaturesFor(init, rows);
      assert v !in init;
      forall t | 0 <= t < |a| ensures a[t].userId != v {
        assert a[t].userId in init;
      }
      PrefixEntries(a, g, fa, UserFeatures(g), rows);
      LastEntries(a, g, fa, rows, v);
    }
  }

  /** A new user's row joins `Regroup` only through its own group. */
  lemma {:induction false} RegroupSnocOther(us: seq<string>, rows: seq<Row>, r: Row)
    requires r.userId !in us
    ensures Regroup(us, rows + [r]) == Regroup(us, rows)
  {
    if |us| > 0 {
      RegroupSnocOther(us[..|us| - 1], rows, r);
      assert (rows + [r])[..|rows|] == rows;
    }
  }

  /** In grouped rows the user of the last row is the last user to appear. */
  lemma {:induction false} LastUserIsNewest(rows: seq<Row>)
    requires |rows| > 0 && Grouped(rows)
    ensures |Unique(rows)| > 0 && Unique(rows)[|Unique(rows)| - 1] == rows[|rows| - 1].userId
  {
    var init, r := rows[..|rows| - 1], rows[|rows| - 1];
    if |init| > 0 && r.userId in Unique(init) {
      assert Grouped(init);
      LastUserIsNewest(init);
      UniqueFacts(init);
      var i :| 0 <= i < |init| && init[i].userId == r.userId;
      if i < |init| - 1 {
        assert rows[i].userId == rows[|rows| - 1].userId;
        assert rows[|init| - 1].userId == rows[i].userId;
      }
    }
  }

  /** A row of a user not seen before opens a new group at the end. */
  lemma RegroupSnocNew(init: seq<Row>, r: Row)
    requires r.userId !in Unique(init)
    ensures Regroup(Unique(init + [r]), init + [r]) == Regroup(Unique(init), init) + [r]
  {
    var rows := init + [r];
    var us := Unique(init);
    assert rows[..|rows| - 1] == init;
    assert Unique(rows) == us + [r.userId];
    assert (us + [r.userId])[..|us|] == us;
    RegroupSnocOther(us, init, r);
    UniqueFacts(init);
    FilterAbsent(init, r.userId);
    assert Filter(rows, r.userId) == [r];
  }

  lemma UniqueDistinct(rows: seq<Row>)
    ensures Distinct(Unique(rows))
  {
    UniqueFacts(rows);
  }

  /** A row of the newest user extends the last group. */
  lemma RegroupSnocLast(init: seq<Row>, r: Row)
    requires |Unique(init)| > 0 && Unique(init)[|Unique(init)| - 1] == r.userId
    ensures Regroup(Unique(init + [r]), init + [r]) == Regroup(Unique(init), init) + [r]
  {
    var rows := init + [r];
    var us := Unique(init);
    var front := us[..|us| - 1];
    assert rows[..|rows| - 1] == init && rows[|rows| - 1] == r;
    assert r.userId in us;
    assert Unique(rows) == us;
    UniqueDistinct(init);
    forall i | 0 <= i < |front| ensures front[i] != r.userId {
      assert front[i] == us[i];
    }
    RegroupSnocOther(front, init, r);
    var a, f := Regroup(front, init), Filter(init, r.userId);
    assert Regroup(us, rows) == Regroup(front, rows) + Filter(rows, r.userId);
    assert Filter(rows, r.userId) == f + [r];
    assert Regroup(us, init) == a + f;
    assert a + (f + [r]) == (a + f) + [r];
  }

  /** Grouped rows are already in the order `engineer_features` emits them. */
  lemma {:induction false} GroupedRegroupIsIdentity(rows: seq<Row>)
    requires Grouped(rows)
    ensures Regroup(Unique(rows), rows) == rows
  {
    if |rows| > 0 {
      var init, r := rows[..|rows| - 1], rows[|rows| - 1];
      assert rows == init + [r];
      assert Grouped(init);
      GroupedRegroupIsIdentity(init);
      if r.userId !in Unique(init) {
        RegroupSnocNew(init, r);
      } else {
        LastUserIsNewest(rows);
        assert Unique(rows) == Unique(init);
        RegroupSnocLast(init, r);
      }
    }
  }

  /**
   * For grouped rows, feature row `k` is row `k`'s own: computed from its
   * user's group at its position there. This is what lets `predict` pair
   * the rows and the features by position.
   */
  lemma FeaturesAlignWithRows(rows: seq<Row>)
    requires Grouped(rows)
    ensures |EngineerFeatures(rows)| == |rows|
    ensures forall k :: 0 <= k < |rows| ==>
      && k < |EngineerFeatures(rows)|
      && Rank(rows, k) < |Filter(rows, rows[k].userId)|
      && EngineerFeatures(rows)[k] == FeatureAt(Filter(rows, rows[k].userId), Rank(rows, k))
  {
    UniqueFacts(rows);
    GroupedRegroupIsIdentity(rows);
    FeaturesFollowRegroup(Unique(rows), rows);
    forall k | 0 <= k < |rows|
      ensures Rank(rows, k) < |Filter(rows, rows[k].userId)|
      ensures EngineerFeatures(rows)[k] == FeatureAt(Filter(rows, rows[k].userId), Rank(rows, k))
    {
      assert EntryMatches(rows, EngineerFeatures(rows), rows, k);
    }
  }

  /** For grouped rows, the decision paired with row `k` is the model's answer for row `k`'s own features. */
  lemma AlignedScores(rows: seq<Row>, model: Model, scale: FeatureRow -> FeatureRow, out: seq<Prediction>)
    requires Grouped(rows)
    requires |out| == |rows| == |EngineerFeatures(rows)|
    requires forall k :: 0 <= k < |rows| ==> out[k].anomalyScore == model.decision(scale(EngineerFeatures(rows)[k]))
    ensures forall k :: 0 <= k < |rows| ==>
      && Rank(rows, k) < |Filter(rows, rows[k].userId)|
      && out[k].anomalyScore == model.decision(scale(FeatureAt(Filter(rows, rows[k].userId), Rank(rows, k))))
  {
    FeaturesAlignWithRows(rows);
  }

  // ---------------------------------------------------------------------------
  // Risk conversion

  function MinOf(s: seq<real>): real
    requires |s| > 0
  {
    if |s| == 1 then s[0] else Min(MinOf(s[..|s| - 1]), s[|s| - 1])
  }

  function MaxOf(s: seq<real>): real
    requires |s| > 0
  {
    if |s| == 1 then s[0] else Max(MaxOf(s[..|s| - 1]), s[|s| - 1])
  }

  lemma {:induction false} ExtremaBound(s: seq<real>)
    requires |s| > 0
    ensures forall i :: 0 <= i < |s| ==> MinOf(s) <= s[i] <= MaxOf(s)
    ensures exists i :: 0 <= i < |s| && s[i] == MinOf(s)
    ensures exists i :: 0 <= i < |s| && s[i] == MaxOf(s)
  {
    if |s| == 1 {
      assert s[0] == MinOf(s) && s[0] == MaxOf(s);
    } else {
      var init := s[..|s| - 1];
      var n := |s| - 1;
      ExtremaBound(init);
      assert forall i :: 0 <= i < |init| ==> s[i] == init[i];
      var a :| 0 <= a < |init| && init[a] == MinOf(init);
      var b :| 0 <= b < |init| && init[b] == MaxOf(init);
      if s[n] <= MinOf(init) {
        assert s[n] == MinOf(s);
      } else {
        assert s[a] == MinOf(s);
      }
      if s[n] >= MaxOf(init) {
        assert s[n] == MaxOf(s);
      } else {
        assert s[b] == MaxOf(s);
      }
    }
  }

  predicate AllEqual(s: seq<real>) {
    forall i :: 0 <= i < |s| ==> s[i] == s[0]
  }

  lemma ExtremaEqualIffAllEqual(s: seq<real>)
    requires |s| > 0
    ensures MinOf(s) == MaxOf(s) <==> AllEqual(s)
  {
    ExtremaBound(s);
  }

  /** `int((1 - (x - lo) / (hi - lo)) * 100)`; the value is never negative, so truncation is the floor. */
  function RiskOf(x: real, lo: real, hi: real): int
    requires lo < hi
  {
    ((1.0 - (x - lo) / (hi - lo)) * 100.0).Floor
  }

  lemma DivMonotone(a: real, b: real, d: real)
    requires a <= b && d > 0.0
    ensures a / d <= b / d
  {
    assert b / d - a / d == (b - a) / d;
  }

  lemma RiskOfAntitone(x: real, y: real, lo: real, hi: real)
    requires lo < hi && x <= y
    ensures RiskOf(x, lo, hi) >= RiskOf(y, lo, hi)
  {
    DivMonotone(x - lo, y - lo, hi - lo);
  }

  lemma RiskOfRange(x: real, lo: real, hi: real)
    requires lo <= x <= hi && lo < hi
    ensures 0 <= RiskOf(x, lo, hi) <= 100
    ensures x == lo ==> RiskOf(x, lo, hi) == 100
    ensures x == hi ==> RiskOf(x, lo, hi) == 0
  {
    var d := hi - lo;
    var q := (x - lo) / d;
    assert 0.0 / d == 0.0 && d / d == 1.0;
    DivMonotone(0.0, x - lo, hi - lo);
    DivMonotone(x - lo, hi - lo, hi - lo);
    assert 0.0 <= q <= 1.0;
    var v := (1.0 - q) * 100.0;
    assert 0.0 <= v <= 100.0;
    assert v.Floor as real <= v < v.Floor as real + 1.0;
    if x == hi {
      assert q == 1.0;
    }
  }

  /** What the conversion promises once the extrema are known and every score has been mapped. */
  lemma ConversionFacts(scores: seq<real>, lo: real, hi: real, out: seq<int>)
    requires |scores| > 0 && lo == MinOf(scores) && hi == MaxOf(scores) && lo < hi
    requires |out| == |scores|
    requires forall k :: 0 <= k < |scores| ==> out[k] == RiskOf(scores[k], lo, hi)
    ensures forall i :: 0 <= i < |scores| ==> 0 <= out[i] <= 100
    ensures forall i :: 0 <= i < |scores| ==>
      (scores[i] == lo ==> out[i] == 100) && (scores[i] == hi ==> out[i] == 0)
    ensures forall i, j :: 0 <= i < |scores| && 0 <= j < |scores| && scores[i] <= scores[j] ==> out[i] >= out[j]
  {
    ExtremaBound(scores);
    forall k | 0 <= k < |scores|
      ensures 0 <= out[k] <= 100
      ensures (scores[k] == lo ==> out[k] == 100) && (scores[k] == hi ==> out[k] == 0)
    {
      RiskOfRange(scores[k], lo, hi);
    }
    forall k, j | 0 <= k < |scores| && 0 <= j < |scores| && scores[k] <= scores[j]
      ensures out[k] >= out[j]
    {
      RiskOfAntitone(scores[k], scores[j], lo, hi);
    }
  }

  /**
   * The conversion as one definition: all-equal scores become 50; otherwise
   * each score is placed by `RiskOf` between the minimum and the maximum.
   */
  function RiskScores(scores: seq<real>): (rs: seq<int>)
    requires |scores| > 0
    ensures |rs| == |scores|
  {
    ExtremaBound(scores);
    var lo, hi := MinOf(scores), MaxOf(scores);
    assert lo <= scores[0] <= hi;
    if lo == hi then seq(|scores|, _ => 50)
    else seq(|scores|, k requires 0 <= k < |scores| => RiskOf(scores[k], lo, hi))
  }

  /**
   * `_convert_to_risk_score`: all-equal scores all become 50; otherwise the
   * minimum maps to 100, the maximum to 0, and the order is reversed. An
   * empty array has no minimum and raises.
   */
  method ConvertToRiskScores(scores: seq<real>) returns (r: Result<seq<int>, string>)
    ensures r.Failure? <==> |scores| == 0
    ensures r.Success? ==> |r.value| == |scores|
    ensures r.Success? ==> |scores| > 0 && r.value == RiskScores(scores)
    ensures r.Success? ==> forall i :: 0 <= i < |scores| ==> 0 <= r.value[i] <= 100
    ensures r.Success? && AllEqual(scores) ==> forall i :: 0 <= i < |scores| ==> r.value[i] == 50
    ensures r.Success? && !AllEqual(scores) ==>
      forall i :: 0 <= i < |scores| ==>
        (scores[i] == MinOf(scores) ==> r.value[i] == 100) && (scores[i] == MaxOf(scores) ==> r.value[i] == 0)
    ensures r.Success? ==>
      forall i, j :: 0 <= i < |scores| && 0 <= j < |scores| && scores[i] <= scores[j] ==> r.value[i] >= r.value[j]
  {
    if |scores| == 0 {
      return Failure(EmptyReductionMessage);
    }
    var lo, hi := Extrema(scores);
    ExtremaBound(scores);
    ExtremaEqualIffAllEqual(scores);
    if hi == lo {
      return Success(seq(|scores|, _ => 50));
    }
    var out := RisksBetween(scores, lo, hi);
    ConversionFacts(scores, lo, hi, out);
    assert out == RiskScores(scores);
    return Success(out);
  }

  /** The single pass of `min()` and `max()` over the scores. */
  method Extrema(scores: seq<real>) returns (lo: real, hi: real)
    requires |scores| > 0
    ensures lo == MinOf(scores) && hi == MaxOf(scores)
  {
    lo, hi := scores[0], scores[0];
    var i := 1;
    while i < |scores|
      invariant 1 <= i <= |scores|
      invariant lo == MinOf(scores[..i]) && hi == MaxOf(scores[..i])
    {
      assert scores[..i + 1][..i] == scores[..i];
      lo, hi := Min(lo, scores[i]), Max(hi, scores[i]);
      i := i + 1;
    }
    assert scores[..|scores|] == scores;
  }

  /** The element-wise rescaling of the scores between `lo` and `hi`. */
  method RisksBetween(scores: seq<real>, lo: real, hi: real) returns (out: seq<int>)
    requires lo < hi
    ensures |out| == |scores|
    ensures forall k :: 0 <= k < |scores| ==> out[k] == RiskOf(scores[k], lo, hi)
  {
    out := [];
    var i := 0;
    while i < |scores|
      invariant 0 <= i <= |scores|
      invariant |out| == i
      invariant forall k :: 0 <= k < i ==> out[k] == RiskOf(scores[k], lo, hi)
    {
      out := out + [RiskOf(scores[i], lo, hi)];
      i := i + 1;
    }
  }

  // ---------------------------------------------------------------------------
  // Prediction

  /**
   * Why `predict` raises a `ValueError`: `NotTrained` is its own "Model not
   * trained"; `EmptyBatch` is the scaler refusing an empty feature array,
   * whose wording belongs to the library.
   */
  datatype PredictError = NotTrained | EmptyBatch

  /** The `anomaly_score` column of a result. */
  function AnomalyScores(ps: seq<Prediction>): (ds: seq<real>)
    ensures |ds| == |ps|
    ensures forall k :: 0 <= k < |ps| ==> ds[k] == ps[k].anomalyScore
  {
    seq(|ps|, k requires 0 <= k < |ps| => ps[k].anomalyScore)
  }

  /** The decision values of the scaled feature rows. */
  function DecisionScores(fs: seq<FeatureRow>, model: Model, scale: FeatureRow -> FeatureRow): (ds: seq<real>)
    ensures |ds| == |fs|
    ensures forall k :: 0 <= k < |fs| ==> ds[k] == model.decision(scale(fs[k]))
  {
    seq(|fs|, k requires 0 <= k < |fs| => model.decision(scale(fs[k])))
  }

  /** The result rows: row `k` with its decision value, its 0/1 anomaly flag and its risk. */
  function Assemble(rows: seq<Row>, fs: seq<FeatureRow>, model: Model, scale: FeatureRow -> FeatureRow, risks: seq<int>): (out: seq<Prediction>)
    requires |fs| == |rows| == |risks|
    ensures |out| == |rows|
    ensures forall k :: 0 <= k < |rows| ==>
      var x := scale(fs[k]);
      && out[k].row == rows[k]
      && out[k].anomalyScore == model.decision(x)
      && (out[k].isAnomaly == 1 <==> model.predict(x) == -1)
      && (out[k].isAnomaly == 0 <==> model.predict(x) != -1)
      && out[k].riskScore == risks[k]
  {
    seq(|rows|, k requires 0 <= k < |rows| =>
      var x := scale(fs[k]);
      Prediction(rows[k], model.decision(x), if model.predict(x) == -1 then 1 else 0, risks[k]))
  }

  /**
   * `predict`: refuses an untrained detector and an empty batch, then scores
   * every feature row and pairs row `k` with the `k`-th feature row's
   * decision, label and risk; the risk column is the conversion of the
   * decision column as a whole. For rows grouped by user, as the
   * preprocessing sort leaves them, the `k`-th feature row is row `k`'s own.
   */
  method Predict(det: Detector, rows: seq<Row>) returns (r: Result<seq<Prediction>, PredictError>)
    ensures (det.model.None? || det.scaler.None?) ==> r == Failure(NotTrained)
    ensures det.model.Some? && det.scaler.Some? && |rows| == 0 ==> r == Failure(EmptyBatch)
    ensures det.model.Some? && det.scaler.Some? && |rows| > 0 ==> r.Success?
    ensures |EngineerFeatures(rows)| == |rows|
    ensures r.Success? ==>
      && |rows| > 0
      && |r.value| == |rows|
      && (forall k :: 0 <= k < |rows| ==>
           var x := det.scaler.value(EngineerFeatures(rows)[k]);
           && r.value[k].row == rows[k]
           && r.value[k].anomalyScore == det.model.value.decision(x)
           && (r.value[k].isAnomaly == 1 <==> det.model.value.predict(x) == -1)
           && (r.value[k].isAnomaly == 0 <==> det.model.value.predict(x) != -1)
           && 0 <= r.value[k].riskScore <= 100)
      && (forall k :: 0 <= k < |rows| ==> r.value[k].riskScore == RiskScores(AnomalyScores(r.value))[k])
    ensures r.Success? && Grouped(rows) ==>
      forall k :: 0 <= k < |rows| ==>
        && Rank(rows, k) < |Filter(rows, rows[k].userId)|
        && r.value[k].anomalyScore == det.model.value.decision(det.scaler.value(FeatureAt(Filter(rows, rows[k].userId), Rank(rows, k))))
  {
    EngineerFeaturesLength(rows);
    if det.model.None? || det.scaler.None? {
      return Failure(NotTrained);
    }
    if |rows| == 0 {
      return Failure(EmptyBatch);
    }
    var model, scale := det.model.value, det.scaler.value;
    var features := EngineerFeatures(rows);
    var scores := DecisionScores(features, model, scale);
    var risks := ConvertToRiskScores(scores);
    assert risks.Success?;
    var out := Assemble(rows, features, model, scale, risks.value);
    assert AnomalyScores(out) == scores;
    assert forall k :: 0 <= k < |rows| ==> out[k].riskScore == RiskScores(AnomalyScores(out))[k];
    if Grouped(rows) {
      AlignedScores(rows, model, scale, out);
    }
    return Success(out);
  }
}
