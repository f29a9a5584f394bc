/**
 * The in-memory submission store both server versions keep: a list, newest
 * first, that `/api/submit` prepends to, `/api/list` returns and `/api/clear`
 * empties.
 */
module Submissions {

  /** A JSON value as it arrives in a request body. */
  datatype Json =
    | JNull
    | JBool(b: bool)
    | JNumber(n: int)
    | JString(s: string)
    | JArray(elements: seq<Json>)
    | JObject(fields: map<string, Json>)

  /** A stored submission: an object's fields by name. */
  type Record = map<string, Json>

  /** `{ id: uid(), createdAt: new Date().toISOString(), ...body }`: the body's
      fields are spread last, so a body field named `id` or `createdAt` wins. */
  function NewRecord(id: string, createdAt: string, body: map<string, Json>): (r: Record)
    ensures r.Keys == body.Keys + {"id", "createdAt"}
    ensures forall k :: k in body ==> r[k] == body[k]
    ensures "id" !in body ==> r["id"] == JString(id)
    ensures "createdAt" !in body ==> r["createdAt"] == JString(createdAt)
  {
    map["id" := JString(id), "createdAt" := JString(createdAt)] + body
  }

  class Store {
    /** The stored records, newest first. */
    var records: seq<Record>

    /** `const submissions = []` */
    constructor ()
      ensures records == []
    {
      records := [];
    }

    /** `/api/submit`: prepends the new record (`unshift`) and answers with its
        `id` field. The id and timestamp generators are passed in. */
    method Submit(id: string, createdAt: string, body: map<string, Json>) returns (ok: bool, recordId: Json)
      modifies this
      ensures records == [NewRecord(id, createdAt, body)] + old(records)
      ensures |records| == |old(records)| + 1 && records[1..] == old(records)
      ensures ok && recordId == records[0]["id"]
    {
      var record := NewRecord(id, createdAt, body);
      records := [record] + records;
      ok, recordId := true, record["id"];
    }

    /** `/api/list` */
    method List() returns (all: seq<Record>)
      ensures all == records
    {
      all := records;
    }

    /** `/api/clear`: `submissions.length = 0` */
    method Clear() returns (ok: bool)
      modifies this
      ensures records == [] && ok
    {
      records := [];
      ok := true;
    }
  }
}
