# jupyterlab-sql, modelled in Dafny

This project models the behavioural core of jupyterlab-sql, a SQL browser for
JupyterLab. The browser has a TypeScript front end and a Tornado back end. The
model covers:

- **The two response types the front end consumes** (`Wire`, `HistoryApi`,
  `SchemaStructureApi`). Each is a closed error/success sum, and the history
  success splits again on `hasRows`. The model gives each type its
  constructors and its `match`, and says how an HTTP result becomes a
  response: a 404 gets the fixed "server extension" message, any other non-2xx
  status the generic one, and a 2xx body passes through unchanged.
- **The back end's response constructors** (`Responses`). `history_success`
  is modelled as a method with its append loop, proved against a record-list
  function. Each record zips the column names with one row; `zip` stops at the
  shorter of the two, and a repeated key keeps the value of its last
  occurrence.
- **What the two ends agree on** (`Protocol`). Every back-end constructor the
  two clients consume reads back as the corresponding front-end variant. A
  history SELECT result over `id, query, ts, connectionUrl` reads back as
  exactly the list of `QueryMetaData` it came from.
- **The handlers** (`Handlers`), with the executor, the clock and the file
  system as inputs. A handler's run is the list of effects it asks for:
  executor calls, file writes, status, headers, writes, `finish`, or an
  exception that escapes. The module covers:
  - the metadata INSERT and the history SELECT, each corrected to write its
    values as single-quoted SQL strings with inner single quotes doubled, and
    proved to read back exactly under SQLite's rules for quoted tokens. A
    single-quoted token is always a string. A double-quoted token names a
    column when one of that name is in scope, and is a string only otherwise.
    See "Findings" for the code as written;
  - the per-query file paths, proved distinct;
  - the branching in the four POST handlers;
  - the parameter loop, dispatch and 4096-character download loop of
    `HistoryHandler.get`;
  - the route table.
- **The three list widgets** (`ListEntries`, `SchemaSummaryContent`,
  `DatabaseSummaryContent`, `QueryHistoryContent`). `render` is a function
  from the model's data and the current selection to the sequence of entries:
  headers, action items, selectable items with key, name and selected flag,
  and query items. The selection is a field of a class whose click method sets
  it. The model classes' signals are logs of what they emitted.
- **The two page controllers** (`SchemaSummaryPage`, `QueryHistoryPage`).
  Each is a `Page` class that owns a toolbar and a `Content` class. `Content`
  holds the widget slot and, on the schema page, the recorded model and the
  set of models whose `navigateToDatabase` is connected to it. The classes
  cover refresh, response application, relaying and disposal.

External code enters as parameters, left uninterpreted: the network
(`makeRequest`), `JSON.stringify`, `encodeURIComponent`, jupyter_server's
`url_path_join`, the SQL executor (a function from connection URL and
statement to an outcome), the clock (a `ts` argument) and the file system (a
map from path to content).

Neither page checks whether it was disposed before applying a late
response; `OnRefresh` has no precondition on disposal, so such a refresh
still replaces the widget.

Four defects in `handlers.py` are listed under "## Findings". Each is modelled
twice: once as written, and once corrected. The composite handler members
(`Handlers.RunQuery`, `Handlers.SqlQueryPost`, the three structure POST
handlers and `Handlers.HistoryGet`) are built from the corrected pieces named
there.

## Model

| member | source | states |
|---|---|---|
| HistoryApi.CreateError | src/api/history.ts:53-60 | the error variant whose message is exactly the argument |
| HistoryApi.CreateNotFoundError | src/api/history.ts:62-67 | an error whose message is exactly "Failed to reach server endpoints. Is the server extension installed correctly?" |
| HistoryApi.MatchError | src/api/history.ts:75-76 | on an error, `match` returns what `onError` returns for that error's data, and the two success handlers do not affect the result |
| HistoryApi.MatchWithRows | src/api/history.ts:77-81 | on a success with rows, `match` returns `onSuccessWithRows` applied to the same query list, and the other two handlers do not affect the result |
| HistoryApi.MatchNoRows | src/api/history.ts:82-83 | on a success without rows, `match` returns what `onSuccessNoRows` returns, and the other two handlers do not affect the result |
| HistoryApi.CreateErrorResponse | src/api/history.ts:90-99 | always the error variant: the not-found error for 404, the "Unexpected response status from server" message otherwise |
| HistoryApi.ErrorClassification | src/api/history.ts:93-98 | the message is the not-found one if and only if the status is 404, and the generic one if and only if it is not |
| HistoryApi.ValidateBody | src/api/history.ts:101-103 | the body is returned unchanged |
| HistoryApi.HistoryRequest | src/api/history.ts:8-11 | a GET with no body to "/jupyterlab-sql/history?connectionUrl=" followed by the encoded connection string |
| HistoryApi.HistoryRequestSeparatesUrls | src/api/history.ts:11 | connection strings with different encodings are sent to different paths |
| HistoryApi.GetQueryHistory | src/api/history.ts:3-18 | a 2xx result gives its body unchanged; a 404 gives the not-found error; any other status gives the generic error |
| HistoryApi.FailureIgnoresBody | src/api/history.ts:12-14 | two failed results with the same status give the same response, whatever their bodies |
| SchemaStructureApi.CreateError | src/api/schemaStructure.ts:46-53 | the error variant whose message is exactly the argument |
| SchemaStructureApi.CreateNotFoundError | src/api/schemaStructure.ts:55-60 | an error with the fixed "server extension" message |
| SchemaStructureApi.MatchError | src/api/schemaStructure.ts:67-68 | on an error, `match` returns what `onError` returns for that error's data, and the success handler does not affect the result |
| SchemaStructureApi.MatchSuccess | src/api/schemaStructure.ts:69-75 | on a success, `match` returns `onSuccess` applied to a schema list identical to the response's, and the error handler does not affect the result |
| SchemaStructureApi.CreateErrorResponse | src/api/schemaStructure.ts:81-90 | always the error variant: the not-found error for 404, the generic message otherwise |
| SchemaStructureApi.ErrorClassification | src/api/schemaStructure.ts:84-89 | the message is the not-found one if and only if the status is 404 |
| SchemaStructureApi.SchemaRequest | src/api/schemaStructure.ts:6-13 | a POST to "/jupyterlab-sql/schema" whose body is the stringified `{connectionUrl}` object |
| SchemaStructureApi.GetSchemaStructure | src/api/schemaStructure.ts:3-19 | a 2xx result gives its body unchanged; a 404 gives the not-found error; any other status gives the generic error |
| SchemaStructureApi.FailureIgnoresBody | src/api/schemaStructure.ts:14-16 | two failed results with the same status give the same response, whatever their bodies |
| Responses.Error | jupyterlab_sql/responses.py:1-3 | `responseType` is "error", and `responseData` has exactly the key `message`, holding the argument |
| Responses.SuccessWithRows | jupyterlab_sql/responses.py:6-11 | `responseType` is "success"; `responseData` has exactly `hasRows` (true), `keys` and `rows`, the last two unchanged |
| Responses.ZipKeys | jupyterlab_sql/responses.py:17 | a dictionary built from equally long lists has exactly the listed keys |
| Responses.ZipValue | jupyterlab_sql/responses.py:17 | a key maps to the value paired with its last occurrence |
| Responses.ZipDict | jupyterlab_sql/responses.py:17 | `dict(zip(keys, row))` has exactly the keys among the first min(len keys, len row); each key holds the value at its last position there |
| Responses.Records | jupyterlab_sql/responses.py:15-18 | one record per row, in row order, each the zipped dictionary of that row |
| Responses.HistorySuccessResponse | jupyterlab_sql/responses.py:14-23 | success with exactly `hasRows` and `queries`; `hasRows` is true if and only if at least one row was given; `queries` holds the records |
| Responses.HistorySuccess | jupyterlab_sql/responses.py:14-23 | the append loop builds exactly the record list, with one record per row in row order |
| Responses.SuccessNoRows | jupyterlab_sql/responses.py:26-28 | success whose data has exactly the key `hasRows`, false |
| Responses.SuccessWithDatabaseObjects | jupyterlab_sql/responses.py:31-37 | success whose data has exactly `tables` and `views`, copied unchanged |
| Responses.SuccessWithSchemaObjects | jupyterlab_sql/responses.py:40-45 | success whose data has exactly `schemas`, copied unchanged |
| Responses.ReadStringsRoundTrip | jupyterlab_sql/responses.py:42-43 | a list of names sent as JSON strings reads back as the same list |
| Protocol.ErrorConforms | jupyterlab_sql/responses.py:1-3 | `error(m)` reads as both clients' `createError(m)` |
| Protocol.NoRowsConforms | jupyterlab_sql/responses.py:26-28 | `success_no_rows()` reads as the history client's `{hasRows: false}` |
| Protocol.SchemaConforms | jupyterlab_sql/responses.py:40-45 | `success_with_schema_objects(s)` reads as the schema client's success with the same list |
| Protocol.ZipFour | jupyterlab_sql/responses.py:17 | zipping four distinct keys with four values maps each key to its own value |
| Protocol.RecordConforms | jupyterlab_sql/responses.py:17 | a zipped history row reads as the `QueryMetaData` whose four fields it holds |
| Protocol.ReadQueriesOf | src/api/history.ts:20-25 | a list whose every element reads as a query record reads as the list of those records |
| Protocol.RecordsConform | jupyterlab_sql/responses.py:15-18 | the records of the history rows read back as the queries, in order |
| Protocol.ReadHistorySuccess | src/api/history.ts:44-51 | a success body whose `hasRows` and `queries` are well-formed reads as the matching success variant |
| Protocol.HistoryConforms | jupyterlab_sql/responses.py:14-23 | `history_success` over the history columns reads as the client's success with the same queries, or `{hasRows: false}` when there are none |
| Protocol.HistoryAnswerConforms | jupyterlab_sql/handlers.py:194-206 | the history GET answers with the executor's error message, or, when the executor returns the history columns, with a well-formed success; the client reads rows made from queries `qs` back as exactly `qs`, or as no rows when `qs` is empty |
| Numerals.NatToString | jupyterlab_sql/handlers.py:34 | the printed timestamp is a non-empty string of digits with no leading zero unless it is 0 |
| Numerals.ParseNatToString | jupyterlab_sql/handlers.py:34 | reading the printed timestamp back gives the timestamp |
| Numerals.NatToStringInjective | jupyterlab_sql/handlers.py:45 | different timestamps print differently |
| SqlLiteral.StripPrefix | jupyterlab_sql/handlers.py:34 | the rest after a prefix exists if and only if the text starts with the prefix, and prefix plus rest is the text |
| SqlLiteral.StripOwnPrefix | jupyterlab_sql/handlers.py:177 | text that starts with a prefix strips to exactly what follows it |
| SqlLiteral.EscapeUnquoted | jupyterlab_sql/handlers.py:34 | text without the quote character is its own escaped form |
| SqlLiteral.ReadEscaped | jupyterlab_sql/handlers.py:34 | escaped text closed by its quote reads back as the original value, with the following text left over |
| SqlLiteral.ReadQuoted | jupyterlab_sql/handlers.py:34 | a quoted token reads back as its value, whatever quotes the value contains |
| SqlLiteral.ReadStringLiteral | jupyterlab_sql/handlers.py:34 | a single-quoted string literal reads as a string holding exactly its value, whatever columns are in scope |
| SqlLiteral.ReadDoubleQuoted | jupyterlab_sql/handlers.py:177 | a double-quoted token reads as a column reference when it names a column in scope, case aside, and as a string otherwise |
| Handlers.MetadataQueryAsWrittenCollides | jupyterlab_sql/handlers.py:34 | the INSERT as written gives the same statement for two different (query, connection URL) pairs |
| Handlers.MetadataQueryBuilder | jupyterlab_sql/handlers.py:32-35 | the INSERT reads back as exactly the strings (query, ts, connection URL), in that order, and the same ts is returned |
| Handlers.MetadataQueryInjective | jupyterlab_sql/handlers.py:32-35 | different requests give different INSERT statements |
| Handlers.HistoryQueryAsWrittenMisreads | jupyterlab_sql/handlers.py:177 | the SELECT as written does not compare with a connection URL that contains a double quote |
| Handlers.HistoryQueryAsWrittenReads | jupyterlab_sql/handlers.py:177 | for a URL without double quotes, the SELECT as written compares with the column the URL names when it names one of `metadata`'s columns or a row-id alias, and with the URL only otherwise |
| Handlers.HistoryQueryAsWrittenReadsColumn | jupyterlab_sql/handlers.py:177 | as written, the URL `connectionUrl` makes the SELECT compare the column with itself |
| Handlers.HistoryQuery | jupyterlab_sql/handlers.py:175-179 | the SELECT compares `connectionUrl` with a string holding exactly the given URL, whatever the URL contains, and ends with "ORDER BY ts DESC" |
| Handlers.LeadingDigitsOf | jupyterlab_sql/handlers.py:45-46 | the digits at the front of a printed number, followed by a separator, are that number |
| Handlers.QueryInputPath | jupyterlab_sql/handlers.py:49 | the input file of a query is `queries/query_{ts}/query_{ts}.in` |
| Handlers.QueryOutputPath | jupyterlab_sql/handlers.py:56 | the output file of a query is `queries/query_{ts}/query_{ts}.out` |
| Handlers.InputPathStamp | jupyterlab_sql/handlers.py:44-50 | the directory of `queries/query_{ts}/query_{ts}.in` names ts |
| Handlers.OutputPathStamp | jupyterlab_sql/handlers.py:52-57 | the directory of `queries/query_{ts}/query_{ts}.out` names ts |
| Handlers.QueryPathsDistinct | jupyterlab_sql/handlers.py:44-57 | input and output paths of different timestamps differ, and no input path is an output path |
| Handlers.DecodeFailureAsWrittenRaisesAfterFinish | jupyterlab_sql/handlers.py:66-75 | as written, a decoding failure raises after `finish` |
| Handlers.DecodeFailure | jupyterlab_sql/handlers.py:73-75 | a decoding failure answers with the error response and does nothing else |
| Handlers.QueryResultEffects | jupyterlab_sql/handlers.py:86-99 | first the output file for the query's stamp is written, then the answer: rows give `success_with_rows` of the keys and rows, no rows give `success_no_rows`, an exception gives `error` with its message |
| Handlers.AnswerQuery | jupyterlab_sql/handlers.py:81-100 | the input file is written, then the user's query runs on its own connection, then the output file is written and the answer sent, chosen as above |
| Handlers.RunQuery | jupyterlab_sql/handlers.py:78-100 | the metadata INSERT runs first; if it raises, the exception escapes at once and the query never runs; otherwise the query is answered; `finish` is only ever the last effect |
| Handlers.SqlQueryPost | jupyterlab_sql/handlers.py:66-100 | a body that fails decoding is answered with its error and nothing else happens; a decoded body is recorded by an INSERT that reads back as exactly its query, stamp and connection URL, and is then run as above; `finish` is only ever the last effect |
| Handlers.StructurePost | jupyterlab_sql/handlers.py:112-134 | a body that fails decoding is answered with its error alone; otherwise exactly one `finish`, with the database objects or the executor's error |
| Handlers.SchemaStructurePost | jupyterlab_sql/handlers.py:146-168 | a body that fails decoding is answered with its error alone; otherwise exactly one `finish`, with the schema list or the executor's error |
| Handlers.TableStructurePost | jupyterlab_sql/handlers.py:230-255 | a body that fails decoding is answered with its error alone; otherwise exactly one `finish`, with the table summary's keys and rows or the executor's error |
| Handlers.FirstValue | jupyterlab_sql/handlers.py:185-190 | a parameter's value is present if and only if the parameter was given |
| Handlers.ReadArguments | jupyterlab_sql/handlers.py:182-190 | the loop over the arguments yields the first value of `fileName` and of `connectionUrl`, or none when absent |
| Handlers.ChunksConcat | jupyterlab_sql/handlers.py:212-217 | the chunks concatenate to the file's content |
| Handlers.ChunksSizes | jupyterlab_sql/handlers.py:209-217 | every chunk has 1 to 4096 characters, and all but the last have exactly 4096 |
| Handlers.StreamFile | jupyterlab_sql/handlers.py:212-217 | the read/write loop writes exactly those chunks, which concatenate to the content |
| Handlers.Writes | jupyterlab_sql/handlers.py:217 | one write per chunk, in order |
| Handlers.HistoryGetAsWrittenActsAfterFinish | jupyterlab_sql/handlers.py:191-218 | as written, a request with no parameters answers 400 and then goes on setting headers after `finish` |
| Handlers.ChunksCount | jupyterlab_sql/handlers.py:213-216 | the file is read in ceil(length / 4096) pieces |
| Handlers.BadRequest | jupyterlab_sql/handlers.py:191-193 | status 400, then `finish` with a JSON object whose only key is `error`, holding "Connection URL or File Name is needed." |
| Handlers.DownloadPath | jupyterlab_sql/handlers.py:208 | the download path is `queries/` followed by the file name, printed `None` when absent |
| Handlers.HistoryBranch | jupyterlab_sql/handlers.py:194-206 | one history query against the metadata database, comparing `connectionUrl` with a string holding exactly the given connection URL, then `finish` with the executor's error or with the history success built from its keys and rows |
| Handlers.DownloadBranch | jupyterlab_sql/handlers.py:207-218 | the Content-Type and Content-Disposition headers for `queries/<fileName>`; then, when the file exists, one write per chunk of its content and `finish`; otherwise `FileNotFoundError` |
| Handlers.DownloadFinishesOnce | jupyterlab_sql/handlers.py:207-218 | the download's last effect is either `finish` or `FileNotFoundError`, and nothing follows a `finish` |
| Handlers.HistoryGetEffects | jupyterlab_sql/handlers.py:181-218 | the first effect is status 400 exactly when both parameters are absent, the history query exactly when `connectionUrl` is given, and a download header exactly when only `fileName` is given |
| Handlers.HistoryGetFinishesOnce | jupyterlab_sql/handlers.py:181-218 | `finish` happens at most once and is the last effect; only a missing download file ends without it |
| Handlers.HistoryGet | jupyterlab_sql/handlers.py:181-218 | 400 with "Connection URL or File Name is needed." when both parameters are absent; the history query whenever `connectionUrl` is given, even with `fileName`; otherwise the download |
| Handlers.RegisterHandlers | jupyterlab_sql/handlers.py:258-295 | five routes, each `base_url` joined with "/jupyterlab-sql/" and one of query, database, table, schema, history, served by their handlers in that order |
| Handlers.FormRoute | jupyterlab_sql/handlers.py:258-261 | a route is `url_path_join` of the base URL, "/jupyterlab-sql/" and the endpoint |
| Handlers.RoutesDistinct | jupyterlab_sql/handlers.py:264-295 | when the join keeps distinct non-empty, slash-free segments apart, no two routes share a pattern, because the five endpoints are such segments |
| ListEntries.Items | src/schemaSummary/content.tsx:92-100 | item i has key offset+i and the i-th name, and is selected if and only if its key equals the selection |
| ListEntries.ItemNamesAppend | src/databaseSummary/content.tsx:150-163 | names, keys and the selected count of a concatenation are those of its parts put together |
| ListEntries.Range | src/databaseSummary/content.tsx:143 | the keys offset, offset+1, and so on |
| ListEntries.RangeAppend | src/databaseSummary/content.tsx:143 | the table keys followed by the view keys, which start at the number of tables, are one contiguous range |
| ListEntries.ItemsFacts | src/databaseSummary/content.tsx:131-148 | the items list every name once, in order, keyed by position from the offset; exactly one is selected when the selection is in range, none otherwise |
| ListEntries.NoItems | src/databaseSummary/content.tsx:152-155 | headers and action items carry no names, keys or selection |
| SchemaSummaryContent.SchemaSummaryModel.constructor | src/schemaSummary/content.tsx:17-21 | the schemas are kept exactly as given, and nothing is emitted yet |
| SchemaSummaryContent.SchemaSummaryModel.OnNavigateToDatabase | src/schemaSummary/content.tsx:27-29 | emits the name exactly once |
| SchemaSummaryContent.SchemaSummaryModel.Dispose | src/schemaSummary/content.tsx:11-13 | marks the model disposed and leaves its emissions |
| SchemaSummaryContent.RenderSchemaList | src/schemaSummary/content.tsx:86-109 | a "Databases" header, then one item per schema in order, item i keyed i; at most one item is selected, exactly one when the selection is in range |
| SchemaSummaryContent.RenderWidget | src/schemaSummary/content.tsx:47-59 | nothing without a model, and otherwise the schema list of the model's schemas |
| SchemaSummaryContent.SchemaList.constructor | src/schemaSummary/content.tsx:74-80 | no item is selected initially |
| SchemaSummaryContent.SchemaList.OnDatabaseItemClick | src/schemaSummary/content.tsx:82-84 | the selection becomes the clicked index, and that item alone is then marked |
| SchemaSummaryContent.SchemaList.OnItemDoubleClick | src/schemaSummary/content.tsx:97 | double-clicking item i emits that item's schema name |
| DatabaseSummaryContent.DatabaseSummaryModel.constructor | src/databaseSummary/content.tsx:19-26 | tables and views are kept exactly as given, and nothing is emitted yet |
| DatabaseSummaryContent.DatabaseSummaryModel.OnNavigateToTable | src/databaseSummary/content.tsx:40-42 | emits the table name once, and only on `navigateToTable` |
| DatabaseSummaryContent.DatabaseSummaryModel.OnNavigateToCustomQuery | src/databaseSummary/content.tsx:44-46 | emits once, and only on `navigateToCustomQuery` |
| DatabaseSummaryContent.DatabaseSummaryModel.OnNavigateToQueryHistory | src/databaseSummary/content.tsx:48-50 | emits once, and only on `navigateToQueryHistory` |
| DatabaseSummaryContent.DatabaseSummaryModel.Dispose | src/databaseSummary/content.tsx:11-15 | marks the model disposed and leaves its emissions |
| DatabaseSummaryContent.ViewPartFacts | src/databaseSummary/content.tsx:157-162 | the views block is empty without views; otherwise a "Views" header, then the views keyed after the tables |
| DatabaseSummaryContent.AfterNonItems | src/databaseSummary/content.tsx:131-139 | entries that are not items, followed by the items: the prefix is kept, and the names, keys and selection are the items' alone |
| DatabaseSummaryContent.TablePartFacts | src/databaseSummary/content.tsx:152-156 | the four action entries, then the tables in order, keyed 0 onwards |
| DatabaseSummaryContent.JoinParts | src/databaseSummary/content.tsx:150-163 | the tables part followed by the views part lists tables then views, keyed by position, with at most one selected |
| DatabaseSummaryContent.ItemsAfter | src/databaseSummary/content.tsx:143-147 | inside any surrounding list, the item for name i sits i places after the prefix, keyed offset+i and marked exactly when selected |
| DatabaseSummaryContent.ViewsAfter | src/databaseSummary/content.tsx:157-162 | after the tables, the "Views" header is followed by view j keyed offset+j, marked exactly when selected |
| DatabaseSummaryContent.PartsAfter | src/databaseSummary/content.tsx:150-163 | after any prefix, table i and view j occupy fixed positions with keys i and tables+j, each marked exactly when it is the selection |
| DatabaseSummaryContent.RenderTableList | src/databaseSummary/content.tsx:122-166 | Actions, the custom query item, the History item, the Tables header and the tables, then the Views header and views only when there are views; entry 4+i is table i keyed i, entry 5+tables+j is view j keyed tables+j, each marked exactly when its key is the selection; item names are tables then views and at most one item is selected |
| DatabaseSummaryContent.RenderWidget | src/databaseSummary/content.tsx:71-92 | nothing without a model, and otherwise the table list of its tables and views |
| DatabaseSummaryContent.TableList.constructor | src/databaseSummary/content.tsx:110-116 | no item is selected initially |
| DatabaseSummaryContent.TableList.OnTableItemClick | src/databaseSummary/content.tsx:118-120 | the selection becomes the clicked key, shared by tables and views; exactly one item is then marked, and it is the entry of the clicked table or view |
| DatabaseSummaryContent.TableList.OnItemDoubleClick | src/databaseSummary/content.tsx:131-148 | double-clicking key i navigates to the i-th of tables followed by views |
| DatabaseSummaryContent.TableList.OnCustomQueryClick | src/databaseSummary/content.tsx:153 | the custom query item triggers `navigateToCustomQuery` alone |
| DatabaseSummaryContent.TableList.OnHistoryClick | src/databaseSummary/content.tsx:154 | the History item triggers `navigateToQueryHistory` alone |
| QueryHistoryContent.QueryItems | src/queryHistory/content.tsx:80-85 | one item per query record, in order, whose title and text are the record's query |
| QueryHistoryContent.RenderWidget | src/queryHistory/content.tsx:34-50 | nothing without a model; otherwise a "Queries" header, then the queries in order, none selectable |
| QueryHistoryContent.QueryList.constructor | src/queryHistory/content.tsx:64-70 | the selection starts empty |
| QueryHistoryContent.QueryList.Render | src/queryHistory/content.tsx:76-91 | the items do not depend on the selection, and none is marked |
| QueryHistoryContent.QueryList.OnTableItemClick | src/queryHistory/content.tsx:72-74 | the selection changes, but what is rendered does not |
| PageToolbar.Timeline.constructor | src/schemaSummary/index.ts:32-42 | a page's record of events starts empty |
| PageToolbar.Timeline.Record | src/schemaSummary/index.ts:68-72 | appends one event to the page's record |
| PageToolbar.Toolbar.constructor | src/schemaSummary/index.ts:35 | a fresh toolbar is not loading and not disposed, and records on the page's timeline |
| PageToolbar.Toolbar.SetLoading | src/schemaSummary/index.ts:69 | sets the loading flag and records `Loading(value)` on the page's timeline |
| PageToolbar.Toolbar.Dispose | src/schemaSummary/index.ts:39 | marks the toolbar disposed |
| SchemaSummaryPage.Content.constructor | src/schemaSummary/index.ts:83-86 | an empty panel for the connection, with no model and no connection |
| SchemaSummaryPage.Content.DisposeWidgets | src/schemaSummary/index.ts:120-125 | the recorded model, if any, is disconnected and disposed, and stays recorded |
| SchemaSummaryPage.Content.SetResponse | src/schemaSummary/index.ts:102-118 | the old model is retired first; a success shows a fresh model over the response's schemas, and only that model is connected; an error shows its message, leaves the recorded model and leaves nothing connected; one applied response is recorded on the timeline |
| SchemaSummaryPage.Content.Refresh | src/schemaSummary/index.ts:92-95 | the panel shows what the schema request for its connection gives; one applied response is recorded on the timeline |
| SchemaSummaryPage.Content.ModelNavigates | src/schemaSummary/index.ts:109-111 | the panel re-emits a model's database name, unchanged, exactly when that model is connected |
| SchemaSummaryPage.Content.Dispose | src/schemaSummary/index.ts:97-100 | the recorded model ends disposed and disconnected, and the panel disposed |
| SchemaSummaryPage.Page.constructor | src/schemaSummary/index.ts:32-42 | the page refreshes exactly once: its timeline is exactly loading on, response applied, loading off, and the panel shows the response |
| SchemaSummaryPage.Page.OnRefresh | src/schemaSummary/index.ts:68-72 | the timeline grows by exactly loading on, response applied, loading off, so the response is applied while loading is shown; the panel shows that response |
| SchemaSummaryPage.Page.RefreshButtonClicked | src/schemaSummary/index.ts:37 | the refresh button runs `_onRefresh`, with the same three events |
| SchemaSummaryPage.Page.BackButtonClicked | src/schemaSummary/index.ts:36 | a back click is re-emitted once on `navigateBack` |
| SchemaSummaryPage.Page.Dispose | src/schemaSummary/index.ts:60-66 | the first call leaves the panel disposed with nothing connected, the toolbar disposed, and the page reporting disposed; later calls change nothing |
| QueryHistoryPage.Content.constructor | src/queryHistory/index.ts:72-75 | an empty panel for the connection |
| QueryHistoryPage.Content.SetResponse | src/queryHistory/index.ts:82-91 | the widget is what the client's `match` selects: a list of exactly the queries, the old widget for a success without rows, or a pre-formatted error message; one applied response is recorded on the timeline |
| QueryHistoryPage.Content.Refresh | src/queryHistory/index.ts:77-80 | the panel applies what the history request for its connection gives; one applied response is recorded on the timeline |
| QueryHistoryPage.Content.Dispose | src/queryHistory/index.ts:33 | marks the panel disposed |
| QueryHistoryPage.Page.constructor | src/queryHistory/index.ts:28-36 | the page refreshes exactly once, which is its only refresh: its timeline is exactly loading on, response applied, loading off, and the panel shows the response |
| QueryHistoryPage.Page.OnRefresh | src/queryHistory/index.ts:58-62 | the timeline grows by exactly loading on, response applied, loading off, so the response is applied while loading is shown; the panel shows that response |
| QueryHistoryPage.Page.BackButtonClicked | src/queryHistory/index.ts:32 | a back click is re-emitted once on `backButtonClicked` |
| QueryHistoryPage.Page.Dispose | src/queryHistory/index.ts:50-56 | the first call disposes panel and toolbar, and the page reports disposed; later calls change nothing |

## Left out

- Network transport: `Server.makeRequest`, `fetch` and `response.json()` are a parameter from request to result. A result's `ok` is taken as a 2xx status, and its body is already parsed into the client's response type. `Protocol` relates the back end's JSON to those types.
- `JSON.stringify`, `encodeURIComponent` and `url_path_join` are uninterpreted parameters; `json.dumps` is left out, and a reply body is the JSON value itself.
- `request_decoder` and `schema_loader` are not part of this model. A decoded request is an input: either its fields or the decoding error's text.
- The executor, SQLAlchemy, SQLite, `pandas.to_csv`, `os.makedirs` and `open` are foreign I/O. The executor is a function from connection URL and statement to an outcome. The CSV output is recorded as the keys and rows it is written from. The file system is a map from path to content, and a missing file raises. Statements are read only as far as their quoted operands: which rows a WHERE clause keeps is not modelled.
- `time.time()`: the timestamp is an argument, a natural number (seconds since 1970, truncated by `int`).
- Tornado internals: the order of `set_status`/`finish` effects is modelled; what Tornado does with calls after `finish` is not. `run_in_executor` threading and async interleaving are left out too. Each refresh is one atomic step, so two overlapping refreshes are not modelled.
- The `print` calls in `HistoryHandler.get` and `TableStructureHandler.post` write to the console only and are left out. The UTF-8 decoding of query parameters is left out: parameters are strings.
- `SingletonPanel`, `PreWidget`, `proxyFor` and the toolbars are defined in files that are not part of this model.
  - The widget slot is a plain value replaced on assignment.
  - A proxied signal re-emits unchanged; the pages' `navigateToDatabase` is the panel's log.
  - A toolbar is a stand-in with the loading flag and disposal; its `setLoading` calls and the panel's applied responses are recorded on one ghost timeline per page.
- Lumino signal internals: `Signal.disconnectBetween` and the clearing of connections in `VDomModel.dispose` both come down to removing the old model from the panel's set of connected models, followed by disposing it.
- React, JSX, CSS classes and re-rendering: only the entry sequence, keys, titles and selection are modelled.
- Python dictionary order: JSON objects are maps, because the front end reads fields by name.
- jupyterlab_sql/handlers/__init__.py (a legacy handler that runs a query on a fixed connection) and jupyterlab_sql/__init__.py (extension registration) are host integration with nothing to state.

## Findings

| source | as written | input that shows it | evidently intended | confidence | as-written member | corrected member |
|---|---|---|---|---|---|---|
| jupyterlab_sql/handlers.py:191-193 | after answering 400 the handler does not return, so it runs the download branch for `queries/None` and acts after `finish` | a history GET with neither `connectionUrl` nor `fileName` | return after the 400 reply | not executed; high | Handlers.HistoryGetAsWritten, Handlers.HistoryGetAsWrittenActsAfterFinish | Handlers.HistoryGet, Handlers.HistoryGetFinishesOnce |
| jupyterlab_sql/handlers.py:34 | query and connection URL go between double quotes unescaped, so a quote in either can shift the literal boundaries | query `a", "1", "b` with URL `c`, and query `a` with URL `b", "1", "c`, both at ts 1, give the same statement; a query with a single `"` makes the INSERT malformed, so the metadata execution raises and the user's query never runs | write each value as a single-quoted SQL string with its single quotes doubled, so the statement reads back as the values stored | not executed; high | Handlers.MetadataQueryAsWritten, Handlers.MetadataQueryAsWrittenCollides | Handlers.MetadataQueryBuilder, Handlers.MetadataQueryInjective |
| jupyterlab_sql/handlers.py:177 | the connection URL goes between double quotes unescaped | connection URL `a"b`: the token ends after `a` and the statement no longer filters on the URL; connection URL `connectionUrl` (or `ts`, `id`, any case) names a column, so SQLite compares the column with a column and, for `connectionUrl`, keeps every row | write the URL as a single-quoted SQL string with its single quotes doubled, which SQLite always reads as a string | not executed; high | Handlers.HistoryQueryAsWritten, Handlers.HistoryQueryAsWrittenMisreads, Handlers.HistoryQueryAsWrittenReadsColumn | Handlers.HistoryQuery |
| jupyterlab_sql/handlers.py:66-75 | on a decoding error the context-manager generator finishes the request and returns without yielding, so `with` raises "generator didn't yield" after the reply | any POST body that fails validation | answer with the error and skip the handler body without raising | not executed; high | Handlers.DecodeFailureAsWritten, Handlers.DecodeFailureAsWrittenRaisesAfterFinish | Handlers.DecodeFailure, Handlers.SqlQueryPost |
| jupyterlab_sql/handlers.py:112-120 | the database structure handler's `decoded_request` has the same shape: on a decoding error it finishes and returns without yielding, so `with` raises "generator didn't yield" after the reply | any database structure POST body that fails validation | answer with the error and skip the handler body without raising | not executed; high | Handlers.DecodeFailureAsWritten, Handlers.DecodeFailureAsWrittenRaisesAfterFinish | Handlers.DecodeFailure, Handlers.StructurePost |
| jupyterlab_sql/handlers.py:146-154 | the schema structure handler's `decoded_request` has the same shape: on a decoding error it finishes and returns without yielding, so `with` raises "generator didn't yield" after the reply | any schema structure POST body that fails validation | answer with the error and skip the handler body without raising | not executed; high | Handlers.DecodeFailureAsWritten, Handlers.DecodeFailureAsWrittenRaisesAfterFinish | Handlers.DecodeFailure, Handlers.SchemaStructurePost |
| jupyterlab_sql/handlers.py:230-239 | the table structure handler's `decoded_request` has the same shape: on a decoding error it finishes and returns without yielding, so `with` raises "generator didn't yield" after the reply | any table structure POST body that fails validation | answer with the error and skip the handler body without raising | not executed; high | Handlers.DecodeFailureAsWritten, Handlers.DecodeFailureAsWrittenRaisesAfterFinish | Handlers.DecodeFailure, Handlers.TableStructurePost |
