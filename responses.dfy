/** The back end's response constructors (jupyterlab_sql/responses.py): each
    builds the JSON envelope `{responseType, responseData}` that the front end
    reads. */
module Responses {
  import opened Wire

  /** The envelope every response shares. */
  function Envelope(responseType: string, responseData: map<string, Json>): Json {
    JObject(map["responseType" := JString(responseType), "responseData" := JObject(responseData)])
  }

  /** The `responseType` tag of an envelope. */
  function ResponseType(r: Json): Option<string> {
    match Field(r, "responseType")
    case Some(JString(t)) => Some(t)
    case _ => None
  }

  /** The keys of `responseData`. */
  function DataKeys(r: Json): set<string> {
    match Field(r, "responseData")
    case Some(JObject(fields)) => fields.Keys
    case _ => {}
  }

  /** `responseData[key]`. */
  function DataField(r: Json, key: string): Option<Json> {
    match Field(r, "responseData")
    case Some(d) => Field(d, key)
    case None => None
  }

  /** `error(message)`. */
  function Error(message: string): (r: Json)
    ensures ResponseType(r) == Some("error")
    ensures DataKeys(r) == {"message"} && DataField(r, "message") == Some(JString(message))
  {
    Envelope("error", map["message" := JString(message)])
  }

  /** `success_with_rows(keys, rows)`: the column names and the rows, unchanged. */
  function SuccessWithRows(keys: seq<string>, rows: seq<seq<Json>>): (r: Json)
    ensures ResponseType(r) == Some("success")
    ensures DataKeys(r) == {"hasRows", "keys", "rows"}
    ensures DataField(r, "hasRows") == Some(JBool(true))
    ensures DataField(r, "keys") == Some(JArray(Strings(keys)))
    ensures DataField(r, "rows") == Some(JArray(Rows(rows)))
  {
    Envelope("success", map["hasRows" := JBool(true), "keys" := JArray(Strings(keys)),
                            "rows" := JArray(Rows(rows))])
  }

  function Min(a: nat, b: nat): nat { if a <= b then a else b }

  /** `dict(pairs)` over equally long lists of keys and values, inserted in order. */
  function Zip(keys: seq<string>, values: seq<Json>): map<string, Json>
    requires |keys| == |values|
  {
    if keys == [] then map[]
    else Zip(keys[..|keys| - 1], values[..|keys| - 1])[keys[|keys| - 1] := values[|keys| - 1]]
  }

  /** The dictionary has exactly the given keys. */
  lemma {:induction false} ZipKeys(keys: seq<string>, values: seq<Json>)
    requires |keys| == |values|
    ensures forall k :: k in Zip(keys, values) <==> k in keys
  {
    if keys != [] {
      var n := |keys| - 1;
      ZipKeys(keys[..n], values[..n]);
      assert keys == keys[..n] + [keys[n]];
    }
  }

  /** A key keeps the value paired with its last occurrence. */
  lemma {:induction false} ZipValue(keys: seq<string>, values: seq<Json>, i: nat)
    requires |keys| == |values| && i < |keys|
    requires forall j :: i < j < |keys| ==> keys[j] != keys[i]
    ensures keys[i] in Zip(keys, values) && Zip(keys, values)[keys[i]] == values[i]
  {
    var n := |keys| - 1;
    if i < n {
      ZipValue(keys[..n], values[..n], i);
    }
  }

  /** `dict(zip(keys, row))`: `zip` stops at the shorter of the two lists; a
      key that occurs twice keeps the value of its last occurrence. */
  function ZipDict(keys: seq<string>, row: seq<Json>): (d: map<string, Json>)
    ensures forall k :: k in d <==> k in keys[..Min(|keys|, |row|)]
    ensures forall i :: 0 <= i < Min(|keys|, |row|) &&
                        (forall j :: i < j < Min(|keys|, |row|) ==> keys[j] != keys[i])
                        ==> keys[i] in d && d[keys[i]] == row[i]
  {
    var n := Min(|keys|, |row|);
    ZipKeys(keys[..n], row[..n]);
    forall i | 0 <= i < n && (forall j :: i < j < n ==> keys[j] != keys[i])
      ensures keys[i] in Zip(keys[..n], row[..n]) && Zip(keys[..n], row[..n])[keys[i]] == row[i]
    {
      ZipValue(keys[..n], row[..n], i);
    }
    Zip(keys[..n], row[..n])
  }

  /** One record per row, in row order. */
  function Records(keys: seq<string>, rows: seq<seq<Json>>): (r: seq<Json>)
    ensures |r| == |rows|
    ensures forall i :: 0 <= i < |rows| ==> r[i] == JObject(ZipDict(keys, rows[i]))
  {
    if rows == [] then [] else Records(keys, rows[..|rows| - 1]) + [JObject(ZipDict(keys, rows[|rows| - 1]))]
  }

  /** The response `history_success(keys, rows)` returns. */
  function HistorySuccessResponse(keys: seq<string>, rows: seq<seq<Json>>): (r: Json)
    ensures ResponseType(r) == Some("success")
    ensures DataKeys(r) == {"hasRows", "queries"}
    ensures DataField(r, "hasRows") == Some(JBool(|rows| > 0))
    ensures DataField(r, "queries") == Some(JArray(Records(keys, rows)))
  {
    var records := Records(keys, rows);
    Envelope("success", map["hasRows" := JBool(|records| > 0), "queries" := JArray(records)])
  }

  /** `history_success(keys, rows)`: builds the record list by appending one
      zipped record per row, then wraps it; `hasRows` says whether any row came. */
  method HistorySuccess(keys: seq<string>, rows: seq<seq<Json>>) returns (r: Json)
    ensures r == HistorySuccessResponse(keys, rows)
    ensures DataField(r, "hasRows") == Some(JBool(|rows| > 0))
    ensures match DataField(r, "queries")
            case Some(JArray(qs)) =>
              |qs| == |rows| && forall i :: 0 <= i < |rows| ==> qs[i] == JObject(ZipDict(keys, rows[i]))
            case _ => false
  {
    var arrayList: seq<Json> := [];
    var k := 0;
    while k < |rows|
      invariant 0 <= k <= |rows|
      invariant arrayList == Records(keys, rows[..k])
    {
      assert rows[..k + 1][..k] == rows[..k];
      var record := JObject(ZipDict(keys, rows[k]));
      arrayList := arrayList + [record];
      k := k + 1;
    }
    assert rows[..k] == rows;
    r := Envelope("success", map["hasRows" := JBool(|arrayList| > 0), "queries" := JArray(arrayList)]);
  }

  /** `success_no_rows()`: `hasRows` false and no other data field. */
  function SuccessNoRows(): (r: Json)
    ensures ResponseType(r) == Some("success")
    ensures DataKeys(r) == {"hasRows"} && DataField(r, "hasRows") == Some(JBool(false))
  {
    Envelope("success", map["hasRows" := JBool(false)])
  }

  /** What the executor reports about a database: its table and view names. */
  datatype DatabaseObjects = DatabaseObjects(tables: seq<string>, views: seq<string>)

  /** `success_with_database_objects(database_objects)`. */
  function SuccessWithDatabaseObjects(objects: DatabaseObjects): (r: Json)
    ensures ResponseType(r) == Some("success")
    ensures DataKeys(r) == {"tables", "views"}
    ensures DataField(r, "tables") == Some(JArray(Strings(objects.tables)))
    ensures DataField(r, "views") == Some(JArray(Strings(objects.views)))
  {
    Envelope("success", map["tables" := JArray(Strings(objects.tables)),
                            "views" := JArray(Strings(objects.views))])
  }

  /** `success_with_schema_objects(schema_objects)`. */
  function SuccessWithSchemaObjects(schemas: seq<string>): (r: Json)
    ensures ResponseType(r) == Some("success")
    ensures DataKeys(r) == {"schemas"}
    ensures DataField(r, "schemas") == Some(JArray(Strings(schemas)))
  {
    Envelope("success", map["schemas" := JArray(Strings(schemas))])
  }

  /** A string list survives the trip to JSON: it can be read back. */
  function ReadStrings(items: seq<Json>): Option<seq<string>> {
    if items == [] then Some([])
    else if !items[0].JString? then None
    else match ReadStrings(items[1..])
      case None => None
      case Some(rest) => Some([items[0].s] + rest)
  }

  lemma {:induction false} ReadStringsRoundTrip(xs: seq<string>)
    ensures ReadStrings(Strings(xs)) == Some(xs)
  {
    if xs != [] {
      var items := Strings(xs);
      ReadStringsRoundTrip(xs[1..]);
      assert items[0] == JString(xs[0]);
      assert items[1..] == Strings(xs[1..]);
      assert [xs[0]] + xs[1..] == xs;
    }
  }
}
