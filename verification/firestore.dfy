/**
 * Firestore documents as the React components hold them once a snapshot
 * has been copied into plain records.
 */
module Firestore {
  import opened Js

  /** A document as the components hold it: field name to value. */
  type Record = map<string, Value>

  /** A snapshot document: its id and its stored fields. */
  datatype Doc = Doc(id: string, data: Record)

  /** `record.key`: an absent field reads as `undefined`. */
  function Get(r: Record, key: string): Value {
    if key in r then r[key] else Undefined
  }

  /** `{ id: doc.id, ...doc.data() }`: a stored field called `id` overrides the document id. */
  function Materialize(d: Doc): (r: Record)
    ensures r.Keys == d.data.Keys + {"id"}
    ensures Get(r, "id") == if "id" in d.data then d.data["id"] else Str(d.id)
    ensures forall k :: k in d.data ==> r[k] == d.data[k]
  {
    map["id" := Str(d.id)] + d.data
  }

  /** One record per document, in snapshot order. */
  function MaterializeAll(docs: seq<Doc>): (rs: seq<Record>)
    ensures |rs| == |docs|
    ensures forall k :: 0 <= k < |docs| ==> rs[k] == Materialize(docs[k])
  {
    seq(|docs|, k requires 0 <= k < |docs| => Materialize(docs[k]))
  }
}
