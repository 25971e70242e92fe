/**
 * The transaction list of `src/components/Transactions.js`: the snapshot
 * listener's success and error transitions, the case-insensitive colour
 * lookups for risk levels and statuses, the id shown for a row, the total
 * of the exported report and the placeholder for a missing date.
 */
module Transactions {
  import opened Wrappers
  import opened Js
  import opened Firestore
  import Text

  datatype State = State(transactions: seq<Record>, loading: bool, error: Option<string>, live: bool)

  function Mount(): State {
    State([], true, None, true)
  }

  const FetchFailedPrefix := "Failed to fetch transactions: "

  datatype Event = Snapshot(docs: seq<Doc>) | SnapshotError(message: string) | Unmount

  /**
   * One listener callback. Nothing is delivered after the listener is
   * released, and Firestore cancels a listener once it has reported an
   * error, so an error callback is the listener's last.
   */
  function Step(st: State, e: Event): (st': State)
    ensures !st.live ==> st' == st
    ensures st.live && e.Snapshot? ==>
      st' == State(MaterializeAll(e.docs), false, None, true)
    ensures st.live && e.SnapshotError? ==>
      && st'.transactions == st.transactions
      && !st'.loading && !st'.live
      && st'.error == Some(FetchFailedPrefix + e.message)
    ensures e.Unmount? ==> !st'.live && st'.transactions == st.transactions
  {
    if !st.live then st
    else match e
      case Snapshot(docs) => st.(transactions := MaterializeAll(docs), loading := false, error := None)
      case SnapshotError(m) => st.(error := Some(FetchFailedPrefix + m), loading := false, live := false)
      case Unmount => st.(live := false)
  }

  /** A sequence of listener callbacks, applied in order. */
  function Replay(st: State, events: seq<Event>): State
    decreases |events|
  {
    if |events| == 0 then st else Replay(Step(st, events[0]), events[1..])
  }

  /** Once an error is shown, no later callback changes the list, the spinner or the message. */
  lemma {:induction false} ErrorIsFinal(st: State, m: string, later: seq<Event>)
    requires st.live
    ensures Replay(Step(st, SnapshotError(m)), later) == Step(st, SnapshotError(m))
    decreases |later|
  {
    if |later| > 0 {
      ErrorIsFinal(st, m, later[1..]);
    }
  }

  /** Every good snapshot clears the message and shows exactly its documents, whatever came before while listening. */
  lemma {:induction false} SnapshotShowsItsDocs(st: State, events: seq<Event>, docs: seq<Doc>)
    requires Replay(st, events).live
    ensures Replay(st, events + [Snapshot(docs)]) == State(MaterializeAll(docs), false, None, true)
    decreases |events|
  {
    if |events| > 0 {
      assert (events + [Snapshot(docs)])[1..] == events[1..] + [Snapshot(docs)];
      SnapshotShowsItsDocs(Step(st, events[0]), events[1..], docs);
    }
  }

  /** An error that arrives after a good snapshot keeps the rows that snapshot delivered. */
  lemma ErrorKeepsRows(docs: seq<Doc>, m: string)
    ensures var st := Step(Step(Mount(), Snapshot(docs)), SnapshotError(m));
      st.transactions == MaterializeAll(docs) && st.error.Some? && !st.loading
  {
  }

  // ---------------------------------------------------------------------------
  // Colour lookups

  datatype Color = Green | Yellow | Orange | Red | Gray

  /**
   * `switch (v?.toLowerCase())` with a gray default. A missing value reads
   * as `undefined` and gets the default; any other non-string has no
   * `toLowerCase` and throws, which is `None`.
   */
  function LookupIgnoringCase(v: Value, table: seq<(string, Color)>): Option<Color> {
    match v
    case Undefined => Some(Gray)
    case Null => Some(Gray)
    case Str(s) => Some(Lookup(Text.ToLower(s), table))
    case _ => None
  }

  function Lookup(key: string, table: seq<(string, Color)>): (c: Color)
    ensures c != Gray ==> exists i :: 0 <= i < |table| && table[i] == (key, c)
    ensures (forall i :: 0 <= i < |table| ==> table[i].0 != key) ==> c == Gray
  {
    if |table| == 0 then Gray
    else if table[0].0 == key then table[0].1
    else Lookup(key, table[1..])
  }

  const RiskTable: seq<(string, Color)> := [("low", Green), ("medium", Yellow), ("high", Orange), ("critical", Red)]
  const StatusTable: seq<(string, Color)> := [("completed", Green), ("pending", Yellow), ("flagged", Red)]

  /** `getRiskColor`. */
  function RiskColor(risk: Value): Option<Color> {
    LookupIgnoringCase(risk, RiskTable)
  }

  /** `getStatusColor`. */
  function StatusColor(status: Value): Option<Color> {
    LookupIgnoringCase(status, StatusTable)
  }

  /** The risk table, entry by entry. */
  lemma RiskLookup(t: string)
    ensures Lookup(t, RiskTable) ==
      if t == "low" then Green else if t == "medium" then Yellow
      else if t == "high" then Orange else if t == "critical" then Red else Gray
  {
    assert RiskTable[1..][1..][1..][1..] == [];
  }

  /** The status table, entry by entry. */
  lemma StatusLookup(t: string)
    ensures Lookup(t, StatusTable) ==
      if t == "completed" then Green else if t == "pending" then Yellow else if t == "flagged" then Red else Gray
  {
    assert StatusTable[1..][1..][1..] == [];
  }

  /** Risk levels match in any letter case; anything else, including a missing level, is gray. */
  lemma RiskColorIgnoresCase(s: string)
    ensures RiskColor(Str(s)) == Some(Green) <==> Text.SpellsIgnoringCase(s, "low")
    ensures RiskColor(Str(s)) == Some(Yellow) <==> Text.SpellsIgnoringCase(s, "medium")
    ensures RiskColor(Str(s)) == Some(Orange) <==> Text.SpellsIgnoringCase(s, "high")
    ensures RiskColor(Str(s)) == Some(Red) <==> Text.SpellsIgnoringCase(s, "critical")
    ensures RiskColor(Str(s)) == Some(Gray) <==>
      !Text.SpellsIgnoringCase(s, "low") && !Text.SpellsIgnoringCase(s, "medium")
      && !Text.SpellsIgnoringCase(s, "high") && !Text.SpellsIgnoringCase(s, "critical")
    ensures RiskColor(Undefined) == Some(Gray) && RiskColor(Null) == Some(Gray)
  {
    var t := Text.ToLower(s);
    assert RiskColor(Str(s)) == Some(Lookup(t, RiskTable));
    RiskLookup(t);
    Text.ToLowerMatchesWord(s, "low");
    Text.ToLowerMatchesWord(s, "medium");
    Text.ToLowerMatchesWord(s, "high");
    Text.ToLowerMatchesWord(s, "critical");
  }

  /** Statuses match in any letter case; anything else is gray. */
  lemma StatusColorIgnoresCase(s: string)
    ensures StatusColor(Str(s)) == Some(Green) <==> Text.SpellsIgnoringCase(s, "completed")
    ensures StatusColor(Str(s)) == Some(Yellow) <==> Text.SpellsIgnoringCase(s, "pending")
    ensures StatusColor(Str(s)) == Some(Red) <==> Text.SpellsIgnoringCase(s, "flagged")
    ensures StatusColor(Str(s)) == Some(Gray) <==>
      !Text.SpellsIgnoringCase(s, "completed") && !Text.SpellsIgnoringCase(s, "pending")
      && !Text.SpellsIgnoringCase(s, "flagged")
    ensures StatusColor(Undefined) == Some(Gray) && StatusColor(Null) == Some(Gray)
  {
    var t := Text.ToLower(s);
    assert StatusColor(Str(s)) == Some(Lookup(t, StatusTable));
    StatusLookup(t);
    Text.ToLowerMatchesWord(s, "completed");
    Text.ToLowerMatchesWord(s, "pending");
    Text.ToLowerMatchesWord(s, "flagged");
  }

  // ---------------------------------------------------------------------------
  // Row and report figures

  /** `transaction.transactionId || transaction.id`. */
  function DisplayId(tx: Record): Value {
    Or(Get(tx, "transactionId"), Get(tx, "id"))
  }

  /**
   * A truthy `transactionId` is shown as it is. A missing or falsy one
   * (`""`, 0, null) falls through to the record's `id`, which is the
   * stored `id` field if the document has one and the document id otherwise.
   */
  lemma DisplayIdFallback(d: Doc)
    ensures Truthy(Get(d.data, "transactionId")) ==> DisplayId(Materialize(d)) == d.data["transactionId"]
    ensures !Truthy(Get(d.data, "transactionId")) ==> DisplayId(Materialize(d)) == Get(Materialize(d), "id")
    ensures !Truthy(Get(d.data, "transactionId")) && "id" !in d.data ==> DisplayId(Materialize(d)) == Str(d.id)
  {
  }

  /**
   * `transactions.reduce((sum, t) => sum + (t.amount || 0), 0)`. Numbers
   * add up and `true` counts as 1; once a string or object is added the
   * sum becomes text, which is `None`.
   */
  function ReportTotal(txs: seq<Record>): Option<real> {
    if |txs| == 0 then Some(0.0)
    else
      match ReportTotal(txs[..|txs| - 1])
      case None => None
      case Some(sum) =>
        match Or(Get(txs[|txs| - 1], "amount"), Num(0.0))
        case Num(n) => Some(sum + n)
        case Bool(_) => Some(sum + 1.0)
        case _ => None
  }

  /** The amount a row contributes when it is numeric or missing. */
  function AmountOrZero(tx: Record): real {
    match Get(tx, "amount") case Num(n) => n case _ => 0.0
  }

  predicate NumericOrMissing(tx: Record) {
    Get(tx, "amount").Num? || !Truthy(Get(tx, "amount"))
  }

  function SumAmounts(txs: seq<Record>): real {
    if |txs| == 0 then 0.0 else SumAmounts(txs[..|txs| - 1]) + AmountOrZero(txs[|txs| - 1])
  }

  /** When every amount is a number or missing, the report total is their sum with missing ones as 0. */
  lemma {:induction false} ReportTotalSums(txs: seq<Record>)
    requires forall k :: 0 <= k < |txs| ==> NumericOrMissing(txs[k])
    ensures ReportTotal(txs) == Some(SumAmounts(txs))
  {
    if |txs| > 0 {
      ReportTotalSums(txs[..|txs| - 1]);
    }
  }

  /** A string amount turns the total into text for the rest of the list. */
  lemma {:induction false} TextAmountSticks(txs: seq<Record>, k: nat)
    requires k < |txs| && Get(txs[k], "amount").Str? && Truthy(Get(txs[k], "amount"))
    ensures ReportTotal(txs).None?
  {
    if k < |txs| - 1 {
      TextAmountSticks(txs[..|txs| - 1], k);
    }
  }

  /** `formatDate`: a falsy timestamp shows "N/A"; any other goes to the locale formatter. */
  function FormatDate(ts: Value, render: Value -> string): (r: string)
    ensures !Truthy(ts) ==> r == "N/A"
    ensures Truthy(ts) ==> r == render(ts)
  {
    if !Truthy(ts) then "N/A" else render(ts)
  }

  /** A document stored without a date, or with an empty one, is listed with the date "N/A". */
  lemma MissingDateShowsPlaceholder(d: Doc, render: Value -> string)
    requires "date" !in d.data || d.data["date"] == Str("") || d.data["date"] == Null
    ensures FormatDate(Get(Materialize(d), "date"), render) == "N/A"
  {
  }
}
