/** Values that cross the boundary between the Tornado back end and the
    TypeScript front end: JSON documents, HTTP requests and HTTP results. */
module Wire {

  datatype Option<+T> = None | Some(value: T)

  /** A JSON document as the front end receives it. Objects are maps: the
      consumer looks fields up by name, so key order carries no meaning. */
  datatype Json =
    | JNull
    | JBool(b: bool)
    | JInt(n: int)
    | JString(s: string)
    | JArray(items: seq<Json>)
    | JObject(fields: map<string, Json>)

  /** `Field(j, k)` is `j[k]` when `j` is an object that has the key `k`. */
  function Field(j: Json, key: string): (r: Option<Json>)
    ensures r.Some? <==> j.JObject? && key in j.fields
    ensures r.Some? ==> r.value == j.fields[key]
  {
    if j.JObject? && key in j.fields then Some(j.fields[key]) else None
  }

  /** A list of strings as JSON. */
  function Strings(xs: seq<string>): (r: seq<Json>)
    ensures |r| == |xs|
    ensures forall i :: 0 <= i < |xs| ==> r[i] == JString(xs[i])
  {
    if xs == [] then [] else [JString(xs[0])] + Strings(xs[1..])
  }

  /** A table of rows as JSON: each row becomes an array of its cells. */
  function Rows(rows: seq<seq<Json>>): (r: seq<Json>)
    ensures |r| == |rows|
    ensures forall i :: 0 <= i < |rows| ==> r[i] == JArray(rows[i])
  {
    if rows == [] then [] else [JArray(rows[0])] + Rows(rows[1..])
  }

  /** The request handed to the network layer: verb, path and optional body. */
  datatype Request = Request(verb: string, path: string, body: Option<string>)

  /** What the network layer gives back: a status and the parsed body. */
  datatype HttpResult<B> = HttpResult(status: int, body: B) {
    /** `response.ok` of the Fetch API: the status is in the 2xx range. */
    predicate Ok() { 200 <= status <= 299 }
  }
}
