/** The query-history client (src/api/history.ts): the response type the
    history endpoint promises, its constructors, its `match`, and the
    translation of an HTTP result into a response. */
module HistoryApi {
  import opened Wire

  /** One row of the metadata table. */
  datatype QueryMetaData = QueryMetaData(id: int, ts: int, query: string, connectionUrl: string)

  datatype ErrorData = ErrorData(message: string)

  /** The success payload: either `{hasRows: false}` or `{hasRows: true, queries}`. */
  datatype SuccessData = NoRows | WithRows(queries: seq<QueryMetaData>) {
    predicate HasRows() { WithRows? }
  }

  /** `QueryHistoryResponseModel.Type`: the error variant or the success variant. */
  datatype Response = Error(error: ErrorData) | Success(success: SuccessData)

  const NotFoundMessage: string :=
    "Failed to reach server endpoints. Is the server extension installed correctly?"

  const UnexpectedStatusMessage: string := "Unexpected response status from server"

  const HistoryPath: string := "/jupyterlab-sql/history?connectionUrl="

  /** `createError(message)`. */
  function CreateError(message: string): (r: Response)
    ensures r.Error? && r.error.message == message
  {
    Error(ErrorData(message))
  }

  /** `createNotFoundError()`: the error that says the endpoint is not there. */
  function CreateNotFoundError(): (r: Response)
    ensures r.Error?
    ensures r.error.message == "Failed to reach server endpoints. Is the server extension installed correctly?"
  {
    CreateError(NotFoundMessage)
  }

  /** `match(response, onSuccessWithRows, onSuccessNoRows, onError)`. */
  function Match<U>(response: Response, onSuccessWithRows: seq<QueryMetaData> -> U,
                    onSuccessNoRows: () -> U, onError: ErrorData -> U): U
  {
    match response
    case Error(e) => onError(e)
    case Success(data) =>
      if data.HasRows() then onSuccessWithRows(data.queries) else onSuccessNoRows()
  }

  /** On an error, `match` gives what `onError` gives for that error's data,
      whatever the two success handlers are. */
  lemma MatchError<U>(message: string, f1: seq<QueryMetaData> -> U, g1: () -> U,
                      f2: seq<QueryMetaData> -> U, g2: () -> U, h: ErrorData -> U)
    ensures Match(CreateError(message), f1, g1, h) == h(ErrorData(message))
    ensures Match(CreateError(message), f1, g1, h) == Match(CreateError(message), f2, g2, h)
  {
  }

  /** On a success with rows, `match` hands the very same query list to
      `onSuccessWithRows`, whatever the two other handlers are. */
  lemma MatchWithRows<U>(queries: seq<QueryMetaData>, f: seq<QueryMetaData> -> U,
                         g1: () -> U, h1: ErrorData -> U, g2: () -> U, h2: ErrorData -> U)
    ensures Match(Success(WithRows(queries)), f, g1, h1) == f(queries)
    ensures Match(Success(WithRows(queries)), f, g1, h1) == Match(Success(WithRows(queries)), f, g2, h2)
  {
  }

  /** On a success without rows, `match` gives what `onSuccessNoRows` gives,
      whatever the two other handlers are. */
  lemma MatchNoRows<U>(f1: seq<QueryMetaData> -> U, g: () -> U, h1: ErrorData -> U,
                       f2: seq<QueryMetaData> -> U, h2: ErrorData -> U)
    ensures Match(Success(NoRows), f1, g, h1) == g()
    ensures Match(Success(NoRows), f1, g, h1) == Match(Success(NoRows), f2, g, h2)
  {
  }

  /** `Private.createErrorResponse(status)`: 404 means the server extension
      is missing, anything else is an unexpected status. */
  function CreateErrorResponse(status: int): (r: Response)
    ensures r.Error?
    ensures status == 404 ==> r == CreateNotFoundError()
    ensures status != 404 ==> r.error.message == "Unexpected response status from server"
  {
    if status == 404 then CreateNotFoundError() else CreateError(UnexpectedStatusMessage)
  }

  /** The two messages tell the two kinds of failure apart: the message is the
      not-found one exactly when the status is 404. */
  lemma ErrorClassification(status: int)
    ensures CreateErrorResponse(status).error.message == NotFoundMessage <==> status == 404
    ensures CreateErrorResponse(status).error.message == UnexpectedStatusMessage <==> status != 404
  {
    assert |NotFoundMessage| != |UnexpectedStatusMessage|;
  }

  /** `Private.validateBody`: the body is trusted as it is. */
  function ValidateBody(body: Response): (r: Response)
    ensures r == body
  {
    body
  }

  /** The request `getQueryHistory` sends; `encode` is `encodeURIComponent`. */
  function HistoryRequest(connectionUrl: string, encode: string -> string): (r: Request)
    ensures r.verb == "GET" && r.body == None
    ensures r.path == "/jupyterlab-sql/history?connectionUrl=" + encode(connectionUrl)
  {
    Request("GET", HistoryPath + encode(connectionUrl), None)
  }

  /** Two connection strings whose encodings differ are sent to different paths. */
  lemma HistoryRequestSeparatesUrls(a: string, b: string, encode: string -> string)
    requires encode(a) != encode(b)
    ensures HistoryRequest(a, encode).path != HistoryRequest(b, encode).path
  {
    var pa, pb := HistoryRequest(a, encode).path, HistoryRequest(b, encode).path;
    assert pa[|HistoryPath|..] == encode(a);
    assert pb[|HistoryPath|..] == encode(b);
  }

  /** `getQueryHistory(connectionUrl)`, with the network layer `makeRequest`
      given as a function from the request to its result. */
  function GetQueryHistory(connectionUrl: string, encode: string -> string,
                           makeRequest: Request -> HttpResult<Response>): (r: Response)
    ensures var http := makeRequest(HistoryRequest(connectionUrl, encode));
            && (http.Ok() ==> r == http.body)
            && (!http.Ok() && http.status == 404 ==> r.Error? && r.error.message == NotFoundMessage)
            && (!http.Ok() && http.status != 404 ==> r.Error? && r.error.message == UnexpectedStatusMessage)
  {
    var response := makeRequest(HistoryRequest(connectionUrl, encode));
    if !response.Ok() then CreateErrorResponse(response.status)
    else ValidateBody(response.body)
  }

  /** A failed request is classified from its status alone: the body is not read. */
  lemma FailureIgnoresBody(connectionUrl: string, encode: string -> string,
                           m1: Request -> HttpResult<Response>, m2: Request -> HttpResult<Response>)
    requires var req := HistoryRequest(connectionUrl, encode);
             !m1(req).Ok() && m1(req).status == m2(req).status
    ensures GetQueryHistory(connectionUrl, encode, m1) == GetQueryHistory(connectionUrl, encode, m2)
  {
  }
}
