/**
 * The naive CSV reader of the upload screen (`parseCSV`): the first line is
 * the header, every later line that is not blank becomes one record, fields
 * are split on every comma (no quoting) and trimmed.
 */
module Csv {
  import opened Wrappers
  import opened Text

  /**
   * A parsed row: header name to cell. A header whose column is missing from
   * a short row is present with no value, as assigning `values[index]` past
   * the end stores `undefined`.
   */
  type Record = map<string, Option<string>>

  /** Every element trimmed, in order. */
  function TrimAll(xs: seq<string>): (r: seq<string>)
    ensures |r| == |xs|
    ensures forall i :: 0 <= i < |xs| ==> r[i] == Trim(xs[i])
  {
    if |xs| == 0 then [] else [Trim(xs[0])] + TrimAll(xs[1..])
  }

  /** The trimmed comma-separated cells of one line. */
  function Cells(line: string): seq<string> {
    TrimAll(Split(line, ','))
  }

  /** `values[i]`, or `undefined` past the end. */
  function At(values: seq<string>, i: nat): Option<string> {
    if i < |values| then Some(values[i]) else None
  }

  /** `headers.forEach((header, index) => record[header] = values[index])`. */
  function BuildRecord(headers: seq<string>, values: seq<string>): Record {
    if |headers| == 0 then map[]
    else
      var k := |headers| - 1;
      BuildRecord(headers[..k], values)[headers[k] := At(values, k)]
  }

  /** A record has exactly the header names as keys, whatever the length of the row. */
  lemma {:induction false} BuildRecordKeys(headers: seq<string>, values: seq<string>)
    ensures BuildRecord(headers, values).Keys == set h | h in headers
  {
    if |headers| > 0 {
      var k := |headers| - 1;
      BuildRecordKeys(headers[..k], values);
      assert headers == headers[..k] + [headers[k]];
    }
  }

  /**
   * The value under a header is the cell in that header's column (absent when
   * the row is short); when a header name repeats, its last column wins, and
   * cells beyond the last header are dropped.
   */
  lemma {:induction false} BuildRecordColumns(headers: seq<string>, values: seq<string>, i: nat)
    requires i < |headers|
    requires forall j :: i < j < |headers| ==> headers[j] != headers[i]
    ensures headers[i] in BuildRecord(headers, values)
    ensures BuildRecord(headers, values)[headers[i]] == At(values, i)
  {
    var k := |headers| - 1;
    if i < k {
      assert headers[..k][i] == headers[i];
      BuildRecordColumns(headers[..k], values, i);
    }
  }

  /** `if (line.trim())`. */
  predicate NonBlank(line: string) {
    Trim(line) != ""
  }

  /** Positions of the elements of `xs` that satisfy `keep`, in increasing order. */
  function IndicesWhere<T>(xs: seq<T>, keep: T -> bool): (idx: seq<nat>)
    ensures forall k :: 0 <= k < |idx| ==> idx[k] < |xs| && keep(xs[idx[k]])
    ensures forall k, l :: 0 <= k < l < |idx| ==> idx[k] < idx[l]
    ensures forall i :: 0 <= i < |xs| && keep(xs[i]) ==> i in idx
  {
    if |xs| == 0 then []
    else
      var n := |xs| - 1;
      var prefix := xs[..n];
      var p := IndicesWhere(prefix, keep);
      var r := p + (if keep(xs[n]) then [n] else []);
      assert forall k :: 0 <= k < |p| ==> r[k] == p[k] && prefix[p[k]] == xs[p[k]];
      assert forall i :: 0 <= i < n ==> prefix[i] == xs[i];
      r
  }

  /** Positions of the non-blank lines, in increasing order. */
  function NonBlankIndices(lines: seq<string>): seq<nat> {
    IndicesWhere(lines, NonBlank)
  }

  /** The records of the data lines: one per non-blank line, in order. */
  function ParseRows(headers: seq<string>, lines: seq<string>): seq<Record> {
    if |lines| == 0 then []
    else
      var n := |lines| - 1;
      ParseRows(headers, lines[..n]) + (if NonBlank(lines[n]) then [BuildRecord(headers, Cells(lines[n]))] else [])
  }

  /** Appending a line appends its record when it is not blank. */
  lemma ParseRowsSnoc(headers: seq<string>, lines: seq<string>, line: string)
    ensures ParseRows(headers, lines + [line])
      == ParseRows(headers, lines) + (if NonBlank(line) then [BuildRecord(headers, Cells(line))] else [])
  {
    assert (lines + [line])[..|lines|] == lines;
  }

  /** There is one record per non-blank line. */
  lemma {:induction false} ParseRowsLength(headers: seq<string>, lines: seq<string>)
    ensures |ParseRows(headers, lines)| == |NonBlankIndices(lines)|
  {
    if |lines| > 0 {
      ParseRowsLength(headers, lines[..|lines| - 1]);
    }
  }

  /** Record `k` comes from the `k`-th non-blank line and is keyed by the header names. */
  lemma {:induction false} ParseRowAt(headers: seq<string>, lines: seq<string>, k: nat)
    requires k < |ParseRows(headers, lines)|
    ensures k < |NonBlankIndices(lines)|
    ensures ParseRows(headers, lines)[k] == BuildRecord(headers, Cells(lines[NonBlankIndices(lines)[k]]))
    ensures ParseRows(headers, lines)[k].Keys == set h | h in headers
  {
    ParseRowsLength(headers, lines);
    var n := |lines| - 1;
    var prefix := lines[..n];
    ParseRowsLength(headers, prefix);
    var idx := NonBlankIndices(lines);
    if k < |ParseRows(headers, prefix)| {
      ParseRowAt(headers, prefix, k);
      assert idx[k] == NonBlankIndices(prefix)[k];
      assert prefix[idx[k]] == lines[idx[k]];
    } else {
      BuildRecordKeys(headers, Cells(lines[n]));
    }
  }

  /** The lines of the uploaded text. */
  function Lines(text: string): (lines: seq<string>)
    ensures |lines| >= 1
  {
    Split(text, '\n')
  }

  /** The trimmed header names of the first line. */
  function Headers(text: string): seq<string> {
    Cells(Lines(text)[0])
  }

  /** The lines after the header. */
  function DataLines(text: string): seq<string> {
    Lines(text)[1..]
  }

  /**
   * `parseCSV(csvText)`, written as the loop of the source: the result keeps
   * the records of the non-blank data lines, in order, one per line.
   */
  method ParseCsv(text: string) returns (rows: seq<Record>)
    ensures rows == ParseRows(Headers(text), DataLines(text))
    ensures |rows| == |NonBlankIndices(DataLines(text))|
  {
    var lines := Split(text, '\n');
    var headers := TrimAll(Split(lines[0], ','));
    rows := [];
    var i := 1;
    while i < |lines|
      invariant 1 <= i <= |lines|
      invariant rows == ParseRows(headers, lines[1..i])
    {
      assert lines[1..i + 1] == lines[1..i] + [lines[i]];
      ParseRowsSnoc(headers, lines[1..i], lines[i]);
      if NonBlank(lines[i]) {
        var values := Cells(lines[i]);
        rows := rows + [BuildRecord(headers, values)];
      }
      i := i + 1;
    }
    assert lines[1..i] == DataLines(text);
    ParseRowsLength(headers, DataLines(text));
  }

}
