/** The contract between the two ends: the JSON the Tornado handlers send
    (jupyterlab_sql/responses.py) read as the response types the TypeScript
    clients declare (src/api/history.ts, src/api/schemaStructure.ts). */
module Protocol {
  import opened Wire
  import Responses
  import HistoryApi
  import SchemaStructureApi
  import Handlers

  /** A body that has the declared shape of `QueryMetaData`. */
  function ReadQueryMetaData(j: Json): Option<HistoryApi.QueryMetaData> {
    if j.JObject? && "id" in j.fields && "ts" in j.fields && "query" in j.fields && "connectionUrl" in j.fields
       && j.fields["id"].JInt? && j.fields["ts"].JInt? && j.fields["query"].JString? && j.fields["connectionUrl"].JString?
    then Some(HistoryApi.QueryMetaData(j.fields["id"].n, j.fields["ts"].n, j.fields["query"].s, j.fields["connectionUrl"].s))
    else None
  }

  function ReadQueries(items: seq<Json>): Option<seq<HistoryApi.QueryMetaData>> {
    if items == [] then Some([])
    else match (ReadQueryMetaData(items[0]), ReadQueries(items[1..]))
      case (Some(q), Some(rest)) => Some([q] + rest)
      case _ => None
  }

  /** A body read as `QueryHistoryResponseModel.Type`, or None when it does
      not have one of the declared shapes. */
  function ReadHistoryResponse(j: Json): Option<HistoryApi.Response> {
    var tag := Responses.ResponseType(j);
    if tag == Some("error") then
      match Responses.DataField(j, "message")
      case Some(JString(m)) => Some(HistoryApi.Error(HistoryApi.ErrorData(m)))
      case _ => None
    else if tag == Some("success") then
      match Responses.DataField(j, "hasRows")
      case Some(JBool(false)) => Some(HistoryApi.Success(HistoryApi.NoRows))
      case Some(JBool(true)) =>
        (match Responses.DataField(j, "queries")
         case Some(JArray(items)) =>
           (match ReadQueries(items)
            case Some(qs) => Some(HistoryApi.Success(HistoryApi.WithRows(qs)))
            case None => None)
         case _ => None)
      case _ => None
    else None
  }

  /** A body read as `SchemaStructureResponse.Type`. */
  function ReadSchemaResponse(j: Json): Option<SchemaStructureApi.Response> {
    var tag := Responses.ResponseType(j);
    if tag == Some("error") then
      match Responses.DataField(j, "message")
      case Some(JString(m)) => Some(SchemaStructureApi.Error(SchemaStructureApi.ErrorData(m)))
      case _ => None
    else if tag == Some("success") then
      match Responses.DataField(j, "schemas")
      case Some(JArray(items)) =>
        (match Responses.ReadStrings(items)
         case Some(schemas) => Some(SchemaStructureApi.Success(SchemaStructureApi.SchemaObjects(schemas)))
         case None => None)
      case _ => None
    else None
  }

  /** `error(message)` is the error variant of both clients, with the same message. */
  lemma ErrorConforms(message: string)
    ensures ReadHistoryResponse(Responses.Error(message)) == Some(HistoryApi.CreateError(message))
    ensures ReadSchemaResponse(Responses.Error(message)) == Some(SchemaStructureApi.CreateError(message))
  {
  }

  /** `success_no_rows()` is the history client's `{hasRows: false}`. */
  lemma NoRowsConforms()
    ensures ReadHistoryResponse(Responses.SuccessNoRows()) == Some(HistoryApi.Success(HistoryApi.NoRows))
  {
  }

  /** `success_with_schema_objects(schemas)` is the schema client's success, same list. */
  lemma SchemaConforms(schemas: seq<string>)
    ensures ReadSchemaResponse(Responses.SuccessWithSchemaObjects(schemas))
         == Some(SchemaStructureApi.Success(SchemaStructureApi.SchemaObjects(schemas)))
  {
    Responses.ReadStringsRoundTrip(schemas);
  }

  /** The metadata row the history SELECT yields for a query: the columns in
      `HistoryColumns` order. */
  function HistoryRow(q: HistoryApi.QueryMetaData): seq<Json> {
    [JInt(q.id), JString(q.query), JInt(q.ts), JString(q.connectionUrl)]
  }

  function HistoryRows(qs: seq<HistoryApi.QueryMetaData>): (rows: seq<seq<Json>>)
    ensures |rows| == |qs| && forall i :: 0 <= i < |qs| ==> rows[i] == HistoryRow(qs[i])
  {
    if qs == [] then [] else [HistoryRow(qs[0])] + HistoryRows(qs[1..])
  }

  /** Four distinct keys zipped with four values map each key to its value. */
  lemma ZipFour(k0: string, k1: string, k2: string, k3: string, v0: Json, v1: Json, v2: Json, v3: Json)
    requires k0 != k1 && k0 != k2 && k0 != k3 && k1 != k2 && k1 != k3 && k2 != k3
    ensures var d := Responses.ZipDict([k0, k1, k2, k3], [v0, v1, v2, v3]);
            k0 in d && d[k0] == v0 && k1 in d && d[k1] == v1 && k2 in d && d[k2] == v2 && k3 in d && d[k3] == v3
  {
    var keys := [k0, k1, k2, k3];
    assert Responses.Min(|keys|, 4) == 4;
    assert forall j :: 0 < j < 4 ==> keys[j] != keys[0];
    assert forall j :: 1 < j < 4 ==> keys[j] != keys[1];
    assert keys[3] != keys[2];
  }

  /** A zipped history row is a well-typed `QueryMetaData` with the row's values. */
  lemma RecordConforms(q: HistoryApi.QueryMetaData)
    ensures ReadQueryMetaData(JObject(Responses.ZipDict(Handlers.HistoryColumns, HistoryRow(q)))) == Some(q)
  {
    assert "id"[0] != "ts"[0];
    ZipFour("id", "query", "ts", "connectionUrl", JInt(q.id), JString(q.query), JInt(q.ts), JString(q.connectionUrl));
  }

  lemma {:induction false} ReadQueriesOf(items: seq<Json>, qs: seq<HistoryApi.QueryMetaData>)
    requires |items| == |qs| && forall i :: 0 <= i < |items| ==> ReadQueryMetaData(items[i]) == Some(qs[i])
    ensures ReadQueries(items) == Some(qs)
  {
    if items != [] {
      ReadQueriesOf(items[1..], qs[1..]);
      assert [qs[0]] + qs[1..] == qs;
    }
  }

  /** The zipped records of the history rows read back as the queries. */
  lemma RecordsConform(qs: seq<HistoryApi.QueryMetaData>)
    ensures ReadQueries(Responses.Records(Handlers.HistoryColumns, HistoryRows(qs))) == Some(qs)
  {
    var records := Responses.Records(Handlers.HistoryColumns, HistoryRows(qs));
    forall i | 0 <= i < |records| ensures ReadQueryMetaData(records[i]) == Some(qs[i]) {
      RecordConforms(qs[i]);
    }
    ReadQueriesOf(records, qs);
  }

  lemma ReadHistorySuccess(body: Json, hasRows: bool, items: seq<Json>, qs: seq<HistoryApi.QueryMetaData>)
    requires Responses.ResponseType(body) == Some("success")
    requires Responses.DataField(body, "hasRows") == Some(JBool(hasRows))
    requires Responses.DataField(body, "queries") == Some(JArray(items))
    requires ReadQueries(items) == Some(qs)
    ensures ReadHistoryResponse(body) == Some(HistoryApi.Success(if hasRows then HistoryApi.WithRows(qs) else HistoryApi.NoRows))
  {
  }

  /** `history_success` over the history SELECT's columns and rows is the
      history client's success: the same queries, in the same order, and
      `{hasRows: false}` when there are none. */
  lemma HistoryConforms(qs: seq<HistoryApi.QueryMetaData>)
    ensures ReadHistoryResponse(Responses.HistorySuccessResponse(Handlers.HistoryColumns, HistoryRows(qs)))
         == Some(HistoryApi.Success(if |qs| > 0 then HistoryApi.WithRows(qs) else HistoryApi.NoRows))
  {
    var rows := HistoryRows(qs);
    RecordsConform(qs);
    ReadHistorySuccess(Responses.HistorySuccessResponse(Handlers.HistoryColumns, rows), |qs| > 0,
                       Responses.Records(Handlers.HistoryColumns, rows), qs);
  }

  /** End to end: the history GET with a connection URL answers the client
      with the stored queries, or with the executor's error. */
  lemma HistoryAnswerConforms(connectionUrl: string, execute: (string, string) -> Handlers.QueryOutcome)
    requires var outcome := execute(Handlers.MetadataConnectionUrl, Handlers.HistoryQuery(connectionUrl));
             outcome.Executed? ==> outcome.keys == Handlers.HistoryColumns
                                   && exists qs :: outcome.rows == HistoryRows(qs)
    ensures var effects := Handlers.HistoryBranch(connectionUrl, execute);
            var outcome := execute(Handlers.MetadataConnectionUrl, Handlers.HistoryQuery(connectionUrl));
            && effects[|effects| - 1].Finish? && effects[|effects| - 1].body.Some?
            && var reply := ReadHistoryResponse(effects[|effects| - 1].body.value);
               && (outcome.Raised? ==> reply == Some(HistoryApi.CreateError(outcome.message)))
               && (outcome.Executed? ==> reply.Some? && reply.value.Success?)
               && (outcome.Executed? ==>
                     forall qs :: outcome.rows == HistoryRows(qs) ==>
                       reply == Some(HistoryApi.Success(if |qs| > 0 then HistoryApi.WithRows(qs) else HistoryApi.NoRows)))
  {
    var outcome := execute(Handlers.MetadataConnectionUrl, Handlers.HistoryQuery(connectionUrl));
    if outcome.Executed? {
      forall qs | outcome.rows == HistoryRows(qs)
        ensures ReadHistoryResponse(Responses.HistorySuccessResponse(outcome.keys, outcome.rows))
             == Some(HistoryApi.Success(if |qs| > 0 then HistoryApi.WithRows(qs) else HistoryApi.NoRows))
      {
        HistoryConforms(qs);
      }
      var qs :| outcome.rows == HistoryRows(qs);
      HistoryConforms(qs);
    }
  }
}
