/** The schema-structure client (src/api/schemaStructure.ts): the response
    type of the schema endpoint, its constructors, its `match`, and the
    translation of an HTTP result into a response. */
module SchemaStructureApi {
  import opened Wire

  datatype SchemaObjects = SchemaObjects(schemas: seq<string>)

  datatype ErrorData = ErrorData(message: string)

  /** `SchemaStructureResponse.Type`: the error variant or the success variant. */
  datatype Response = Error(error: ErrorData) | Success(success: SchemaObjects)

  const NotFoundMessage: string :=
    "Failed to reach server endpoints. Is the server extension installed correctly?"

  const UnexpectedStatusMessage: string := "Unexpected response status from server"

  const SchemaPath: string := "/jupyterlab-sql/schema"

  /** `createError(message)`. */
  function CreateError(message: string): (r: Response)
    ensures r.Error? && r.error.message == message
  {
    Error(ErrorData(message))
  }

  /** `createNotFoundError()`: the error that says the endpoint is not there. */
  function CreateNotFoundError(): (r: Response)
    ensures r.Error?
    ensures r.error.message == "Failed to reach server endpoints. Is the server extension installed correctly?"
  {
    CreateError(NotFoundMessage)
  }

  /** `match(response, onSuccess, onError)`; on success the handler receives
      a fresh `{schemas}` object built from the response's list. */
  function Match<U>(response: Response, onSuccess: SchemaObjects -> U, onError: ErrorData -> U): U
  {
    match response
    case Error(e) => onError(e)
    case Success(data) => onSuccess(SchemaObjects(data.schemas))
  }

  /** On an error, `match` gives what `onError` gives for that error's data,
      whatever the success handler is. */
  lemma MatchError<U>(message: string, f1: SchemaObjects -> U, f2: SchemaObjects -> U, h: ErrorData -> U)
    ensures Match(CreateError(message), f1, h) == h(ErrorData(message))
    ensures Match(CreateError(message), f1, h) == Match(CreateError(message), f2, h)
  {
  }

  /** On a success, `match` hands `onSuccess` a list identical to the
      response's, whatever the error handler is. */
  lemma MatchSuccess<U>(schemas: seq<string>, f: SchemaObjects -> U, h1: ErrorData -> U, h2: ErrorData -> U)
    ensures Match(Success(SchemaObjects(schemas)), f, h1) == f(SchemaObjects(schemas))
    ensures Match(Success(SchemaObjects(schemas)), f, h1) == Match(Success(SchemaObjects(schemas)), f, h2)
  {
  }

  /** `Private.createErrorResponse(status)`. */
  function CreateErrorResponse(status: int): (r: Response)
    ensures r.Error?
    ensures status == 404 ==> r == CreateNotFoundError()
    ensures status != 404 ==> r.error.message == "Unexpected response status from server"
  {
    if status == 404 then CreateNotFoundError() else CreateError(UnexpectedStatusMessage)
  }

  /** The message is the not-found one exactly when the status is 404. */
  lemma ErrorClassification(status: int)
    ensures CreateErrorResponse(status).error.message == NotFoundMessage <==> status == 404
    ensures CreateErrorResponse(status).error.message == UnexpectedStatusMessage <==> status != 404
  {
    assert |NotFoundMessage| != |UnexpectedStatusMessage|;
  }

  /** The request `getSchemaStructure` sends; `stringify` is `JSON.stringify`. */
  function SchemaRequest(connectionUrl: string, stringify: Json -> string): (r: Request)
    ensures r.verb == "POST" && r.path == "/jupyterlab-sql/schema"
    ensures r.body == Some(stringify(JObject(map["connectionUrl" := JString(connectionUrl)])))
  {
    Request("POST", SchemaPath, Some(stringify(JObject(map["connectionUrl" := JString(connectionUrl)]))))
  }

  /** `getSchemaStructure(connectionUrl)`, with the network layer `makeRequest`
      given as a function from the request to its result. */
  function GetSchemaStructure(connectionUrl: string, stringify: Json -> string,
                              makeRequest: Request -> HttpResult<Response>): (r: Response)
    ensures var http := makeRequest(SchemaRequest(connectionUrl, stringify));
            && (http.Ok() ==> r == http.body)
            && (!http.Ok() && http.status == 404 ==> r.Error? && r.error.message == NotFoundMessage)
            && (!http.Ok() && http.status != 404 ==> r.Error? && r.error.message == UnexpectedStatusMessage)
  {
    var response := makeRequest(SchemaRequest(connectionUrl, stringify));
    if !response.Ok() then CreateErrorResponse(response.status) else response.body
  }

  /** A failed request is classified from its status alone: the body is not read. */
  lemma FailureIgnoresBody(connectionUrl: string, stringify: Json -> string,
                           m1: Request -> HttpResult<Response>, m2: Request -> HttpResult<Response>)
    requires var req := SchemaRequest(connectionUrl, stringify);
             !m1(req).Ok() && m1(req).status == m2(req).status
    ensures GetSchemaStructure(connectionUrl, stringify, m1) == GetSchemaStructure(connectionUrl, stringify, m2)
  {
  }
}
