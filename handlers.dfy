/** The Tornado handlers (jupyterlab_sql/handlers.py), with the executor, the
    clock and the file system as inputs. A handler's run is the sequence of
    effects it asks of the executor, the file system and the HTTP response. */
module Handlers {
  import opened Wire
  import opened Numerals
  import opened SqlLiteral
  import Responses

  /* ---------------------------------------------------------------------- */
  /* Effects and the abstract inputs                                         */
  /* ---------------------------------------------------------------------- */

  /** What a handler writes into a query's input or output file. */
  datatype FileContent = Text(text: string) | Csv(columns: seq<string>, rows: seq<seq<Json>>)

  datatype Effect =
    | ExecuteMetadata(connectionUrl: string, sql: string)  // executor.execute_metadata_query
    | Execute(connectionUrl: string, sql: string)          // executor.execute_query
    | WriteFile(path: string, content: FileContent)
    | SetStatus(code: int)
    | SetHeader(name: string, value: string)
    | Write(chunk: string)
    | Finish(body: Option<Json>)                           // finish(json.dumps(body)) or finish()
    | Raise(reason: string)                                // an exception escapes the handler

  /** What running a statement gives: the exception's text, or the result. */
  datatype QueryOutcome = Raised(message: string) | Executed(hasRows: bool, keys: seq<string>, rows: seq<seq<Json>>)

  /** What `request_decoder.decode` gives for a query request. */
  datatype QueryRequest = QueryDecodeFailed(reason: string) | QueryDecoded(query: string, connectionUrl: string)

  /** The reply protocol: `finish` is called at most once and nothing follows it. */
  predicate NothingAfterFinish(effects: seq<Effect>) {
    forall i :: 0 <= i < |effects| && effects[i].Finish? ==> i == |effects| - 1
  }

  /** An effect other than `finish` can go in front of a run that finishes last. */
  lemma PrependNotFinish(e: Effect, effects: seq<Effect>)
    requires !e.Finish? && NothingAfterFinish(effects)
    ensures NothingAfterFinish([e] + effects)
  {
    var r := [e] + effects;
    forall i | 0 <= i < |r| && r[i].Finish? ensures i == |r| - 1 {
      assert i > 0 && r[i] == effects[i - 1];
    }
  }

  const MetadataConnectionUrl: string := "sqlite:///metadata.db"

  /* ---------------------------------------------------------------------- */
  /* The metadata INSERT                                                     */
  /* ---------------------------------------------------------------------- */

  const InsertPrefix: string := "INSERT INTO metadata (query, ts, connectionUrl) VALUES ("

  /** `metadata_query_builder` as written: the values are pasted between
      quotes unescaped. */
  function MetadataQueryAsWritten(connectionUrl: string, query: string, ts: nat): (string, nat) {
    (InsertPrefix + "\"" + query + "\", \"" + NatToString(ts) + "\", \"" + connectionUrl + "\")", ts)
  }

  /** A query and a connection URL that contain quotes can trade text: two
      different requests give the very same INSERT. */
  lemma MetadataQueryAsWrittenCollides()
    ensures MetadataQueryAsWritten("c", "a\", \"1\", \"b", 1).0
         == MetadataQueryAsWritten("b\", \"1\", \"c", "a", 1).0
  {
    assert NatToString(1) == "1";
  }

  /** No column is in scope inside VALUES, so a quoted value of either kind
      is a string there. */
  const ValuesScope: set<string> := {}

  /** The statement as SQLite reads it: the three values, or None when it is
      not an INSERT of three quoted strings. */
  function ReadInsert(stmt: string): Option<(string, nat, string)> {
    match StripPrefix(InsertPrefix, stmt)
    case None => None
    case Some(s1) =>
      match ReadOperand(s1, ValuesScope)
      case Some((StringValue(query), s2)) =>
        (match StripPrefix(", ", s2)
         case None => None
         case Some(s3) =>
           match ReadOperand(s3, ValuesScope)
           case Some((StringValue(t), s4)) =>
             if !(|t| > 0 && AllDigits(t)) then None
             else
               (match StripPrefix(", ", s4)
                case None => None
                case Some(s5) =>
                  match ReadOperand(s5, ValuesScope)
                  case Some((StringValue(url), s6)) => if s6 == ")" then Some((query, ParseDigits(t), url)) else None
                  case _ => None)
           case _ => None)
      case _ => None
  }

  /** `metadata_query_builder(connection_url, query)` with the clock reading
      `ts` as input: the INSERT of query, ts and connection URL, in that order,
      each value a string literal, together with the same ts. */
  function MetadataQueryBuilder(connectionUrl: string, query: string, ts: nat): (r: (string, nat))
    ensures r.1 == ts
    ensures ReadInsert(r.0) == Some((query, ts, connectionUrl))
  {
    var t := NatToString(ts);
    var s6 := ")";
    var s5 := StringLiteral(connectionUrl) + s6;
    var s4 := ", " + s5;
    var s3 := StringLiteral(t) + s4;
    var s2 := ", " + s3;
    var s1 := StringLiteral(query) + s2;
    var stmt := InsertPrefix + s1;
    ReadStringLiteral(query, s2, ValuesScope);
    ReadStringLiteral(t, s4, ValuesScope);
    ReadStringLiteral(connectionUrl, s6, ValuesScope);
    assert SingleQuote !in t by { assert forall i :: 0 <= i < |t| ==> IsDigit(t[i]); }
    EscapeUnquoted(SingleQuote, t);
    ParseNatToString(ts);
    assert (", " + s3)[2..] == s3;
    assert (", " + s5)[2..] == s5;
    assert (InsertPrefix + s1)[|InsertPrefix|..] == s1;
    (stmt, ts)
  }

  /** Different requests give different INSERT statements. */
  lemma MetadataQueryInjective(u1: string, q1: string, t1: nat, u2: string, q2: string, t2: nat)
    requires (u1, q1, t1) != (u2, q2, t2)
    ensures MetadataQueryBuilder(u1, q1, t1).0 != MetadataQueryBuilder(u2, q2, t2).0
  {
  }

  /* ---------------------------------------------------------------------- */
  /* The history SELECT                                                      */
  /* ---------------------------------------------------------------------- */

  const SelectPrefix: string := "SELECT id, query, ts, connectionUrl from metadata WHERE connectionUrl = "
  const SelectSuffix: string := " ORDER BY ts DESC"

  /** The columns the history SELECT returns, in order. */
  const HistoryColumns: seq<string> := ["id", "query", "ts", "connectionUrl"]

  /** The query `execute_history_query` sends, as written. */
  function HistoryQueryAsWritten(connectionUrl: string): string {
    SelectPrefix + "\"" + connectionUrl + "\"" + SelectSuffix
  }

  /** The columns in scope in the SELECT's WHERE clause, in lower case: those
      of `metadata` and the row id's three names. */
  const MetadataColumns: set<string> := {"id", "query", "ts", "connectionurl", "rowid", "oid", "_rowid_"}

  /** What the SELECT compares `connectionUrl` with, as SQLite reads it, or
      None when the statement is not the history SELECT over one operand. */
  function ReadHistoryFilter(stmt: string): Option<Operand> {
    match StripPrefix(SelectPrefix, stmt)
    case None => None
    case Some(s1) =>
      match ReadOperand(s1, MetadataColumns)
      case None => None
      case Some((operand, rest)) => if rest == SelectSuffix then Some(operand) else None
  }

  /** A connection URL holding a quote ends the token early: the statement
      as written does not compare with that URL. */
  lemma HistoryQueryAsWrittenMisreads()
    ensures ReadHistoryFilter(HistoryQueryAsWritten("a\"b")) != Some(StringValue("a\"b"))
  {
    var after := "b\"" + SelectSuffix;
    var t1 := "\"" + after;
    var tail := "a" + t1;
    var s1 := "\"" + tail;
    assert ReadBody(DoubleQuote, t1) == Some(([], after)) by {
      assert t1[0] == DoubleQuote && t1[1] == 'b';
      assert t1[1..] == after;
    }
    assert ReadBody(DoubleQuote, tail) == Some(("a", after)) by {
      assert tail[0] == 'a';
      assert tail[1..] == t1;
      assert [tail[0]] + [] == "a";
    }
    assert s1[0] == DoubleQuote && s1[1..] == tail;
    assert HistoryQueryAsWritten("a\"b") == SelectPrefix + s1;
    StripOwnPrefix(SelectPrefix, s1);
    assert after != SelectSuffix by {
      assert |after| != |SelectSuffix|;
    }
  }

  /** For a URL without quotes, the statement as written compares with the
      column the URL names, if it names one in scope, and with the URL only
      otherwise. */
  lemma HistoryQueryAsWrittenReads(connectionUrl: string)
    requires DoubleQuote !in connectionUrl
    ensures ReadHistoryFilter(HistoryQueryAsWritten(connectionUrl))
            == Some(if NamesColumn(connectionUrl, MetadataColumns) then ColumnRef(connectionUrl)
                    else StringValue(connectionUrl))
  {
    var s1 := [DoubleQuote] + connectionUrl + [DoubleQuote] + SelectSuffix;
    ReadDoubleQuoted(connectionUrl, SelectSuffix, MetadataColumns);
    assert HistoryQueryAsWritten(connectionUrl) == SelectPrefix + s1;
    StripOwnPrefix(SelectPrefix, s1);
  }

  /** The URL `connectionUrl` makes the statement as written compare the
      column with itself, which keeps every row. */
  lemma HistoryQueryAsWrittenReadsColumn()
    ensures ReadHistoryFilter(HistoryQueryAsWritten("connectionUrl")) == Some(ColumnRef("connectionUrl"))
  {
    HistoryQueryAsWrittenReads("connectionUrl");
    assert AsciiLower("connectionUrl") == "connectionurl";
  }

  /** The history query: metadata rows whose `connectionUrl` is the string
      `connectionUrl`, newest first; the URL is a string literal. */
  function HistoryQuery(connectionUrl: string): (q: string)
    ensures ReadHistoryFilter(q) == Some(StringValue(connectionUrl))
  {
    var s1 := StringLiteral(connectionUrl) + SelectSuffix;
    ReadStringLiteral(connectionUrl, SelectSuffix, MetadataColumns);
    StripOwnPrefix(SelectPrefix, s1);
    SelectPrefix + s1
  }

  /* ---------------------------------------------------------------------- */
  /* Query files                                                             */
  /* ---------------------------------------------------------------------- */

  /** `queries/query_{ts}/query_{ts}.in`. */
  function QueryInputPath(ts: nat): string {
    "queries/query_" + NatToString(ts) + "/query_" + NatToString(ts) + ".in"
  }

  /** `queries/query_{ts}/query_{ts}.out`. */
  function QueryOutputPath(ts: nat): string {
    "queries/query_" + NatToString(ts) + "/query_" + NatToString(ts) + ".out"
  }

  /** The digits at the front of `s`. */
  function LeadingDigits(s: string): (r: string)
    ensures r <= s && AllDigits(r)
  {
    if s != [] && IsDigit(s[0]) then [s[0]] + LeadingDigits(s[1..]) else []
  }

  lemma {:induction false} LeadingDigitsOf(d: string, rest: string)
    requires AllDigits(d) && rest != [] && !IsDigit(rest[0])
    ensures LeadingDigits(d + rest) == d
  {
    if d == [] {
    } else {
      assert (d + rest)[1..] == d[1..] + rest;
      LeadingDigitsOf(d[1..], rest);
      assert [d[0]] + d[1..] == d;
    }
  }

  /** The timestamp the directory of a query path names. */
  function PathStamp(path: string): string {
    match StripPrefix("queries/query_", path)
    case None => []
    case Some(rest) => LeadingDigits(rest)
  }

  lemma PathStampOf(ts: nat, tail: string)
    requires tail != [] && tail[0] == '/'
    ensures PathStamp("queries/query_" + (NatToString(ts) + tail)) == NatToString(ts)
  {
    var t := NatToString(ts);
    assert ("queries/query_" + (t + tail))[|"queries/query_"|..] == t + tail;
    LeadingDigitsOf(t, tail);
  }

  lemma InputPathStamp(ts: nat)
    ensures PathStamp(QueryInputPath(ts)) == NatToString(ts)
  {
    var t := NatToString(ts);
    assert QueryInputPath(ts) == "queries/query_" + (t + ("/query_" + t + ".in"));
    PathStampOf(ts, "/query_" + t + ".in");
  }

  lemma OutputPathStamp(ts: nat)
    ensures PathStamp(QueryOutputPath(ts)) == NatToString(ts)
  {
    var t := NatToString(ts);
    assert QueryOutputPath(ts) == "queries/query_" + (t + ("/query_" + t + ".out"));
    PathStampOf(ts, "/query_" + t + ".out");
  }

  /** Each query gets its own pair of files: paths for different timestamps
      differ, and a query's input file is never its output file. */
  lemma QueryPathsDistinct(a: nat, b: nat)
    ensures a != b ==> QueryInputPath(a) != QueryInputPath(b) && QueryOutputPath(a) != QueryOutputPath(b)
    ensures QueryInputPath(a) != QueryOutputPath(b)
  {
    InputPathStamp(a);
    InputPathStamp(b);
    OutputPathStamp(a);
    OutputPathStamp(b);
    NatToStringInjective(a, b);
    var pi, po := QueryInputPath(a), QueryOutputPath(b);
    assert pi[|pi| - 1] == 'n';
    assert po[|po| - 1] == 't';
  }

  /* ---------------------------------------------------------------------- */
  /* SqlQueryHandler.post                                                    */
  /* ---------------------------------------------------------------------- */

  /** What `decoded_request` does when decoding fails, as written in all
      four POST handlers: the generator finishes the request and returns
      without yielding, so `contextmanager` raises after the reply has been
      sent. */
  function DecodeFailureAsWritten(reason: string): seq<Effect> {
    [Finish(Some(Responses.Error(reason))), Raise("RuntimeError: generator didn't yield")]
  }

  lemma DecodeFailureAsWrittenRaisesAfterFinish(reason: string)
    ensures !NothingAfterFinish(DecodeFailureAsWritten(reason))
  {
    assert DecodeFailureAsWritten(reason)[0].Finish?;
  }

  /** A decoding failure: the error response, and nothing else. */
  function DecodeFailure(reason: string): (effects: seq<Effect>)
    ensures NothingAfterFinish(effects)
    ensures effects == [Finish(Some(Responses.Error(reason)))]
  {
    [Finish(Some(Responses.Error(reason)))]
  }

  /** The output file and the response for an executed query. */
  function QueryResultEffects(ts: nat, outcome: QueryOutcome): (r: seq<Effect>)
    ensures |r| == 2 && r[0].WriteFile? && r[0].path == QueryOutputPath(ts) && r[1].Finish?
    ensures outcome.Executed? && outcome.hasRows ==> r[1] == Finish(Some(Responses.SuccessWithRows(outcome.keys, outcome.rows)))
    ensures outcome.Executed? && !outcome.hasRows ==> r[1] == Finish(Some(Responses.SuccessNoRows()))
    ensures outcome.Raised? ==> r[1] == Finish(Some(Responses.Error(outcome.message)))
  {
    match outcome
    case Executed(hasRows, keys, rows) =>
      if hasRows then
        [WriteFile(QueryOutputPath(ts), Csv(keys, rows)), Finish(Some(Responses.SuccessWithRows(keys, rows)))]
      else
        [WriteFile(QueryOutputPath(ts), Text("")), Finish(Some(Responses.SuccessNoRows()))]
    case Raised(m) =>
      [WriteFile(QueryOutputPath(ts), Text(m)), Finish(Some(Responses.Error(m)))]
  }

  /** After the INSERT: write the input file, run the query, write the output
      file and answer; the query's failure becomes an error response. */
  function AnswerQuery(ts: nat, query: string, connectionUrl: string,
                       execute: (string, string) -> QueryOutcome): (effects: seq<Effect>)
    ensures |effects| == 4 && NothingAfterFinish(effects) && effects[3].Finish?
    ensures var outcome := execute(connectionUrl, query);
            && effects[0] == WriteFile(QueryInputPath(ts), Text(query))
            && effects[1] == Execute(connectionUrl, query)
            && effects[2].WriteFile? && effects[2].path == QueryOutputPath(ts)
            && (outcome.Executed? && outcome.hasRows ==>
                  effects[3] == Finish(Some(Responses.SuccessWithRows(outcome.keys, outcome.rows))))
            && (outcome.Executed? && !outcome.hasRows ==> effects[3] == Finish(Some(Responses.SuccessNoRows())))
            && (outcome.Raised? ==> effects[3] == Finish(Some(Responses.Error(outcome.message))))
  {
    var result := QueryResultEffects(ts, execute(connectionUrl, query));
    var effects := [WriteFile(QueryInputPath(ts), Text(query)), Execute(connectionUrl, query)] + result;
    assert effects[2] == result[0] && effects[3] == result[1];
    assert !effects[0].Finish? && !effects[1].Finish? && !effects[2].Finish?;
    effects
  }

  /** The body of the `with` block: record the query through `insert`, then
      answer it. The INSERT's failure escapes. */
  function RunQuery(insert: string, ts: nat, query: string, connectionUrl: string,
                    executeMetadata: (string, string) -> QueryOutcome,
                    execute: (string, string) -> QueryOutcome): (effects: seq<Effect>)
    ensures NothingAfterFinish(effects) && |effects| > 0
    ensures effects[|effects| - 1].Finish? || effects[|effects| - 1].Raise?
    ensures effects[0] == ExecuteMetadata(MetadataConnectionUrl, insert)
    ensures executeMetadata(MetadataConnectionUrl, insert).Raised? ==>
              effects == [effects[0], Raise(executeMetadata(MetadataConnectionUrl, insert).message)]
    ensures !executeMetadata(MetadataConnectionUrl, insert).Raised? ==>
              effects == [effects[0]] + AnswerQuery(ts, query, connectionUrl, execute)
  {
    var recorded := executeMetadata(MetadataConnectionUrl, insert);
    if recorded.Raised? then
      [ExecuteMetadata(MetadataConnectionUrl, insert), Raise(recorded.message)]
    else
      var answer := AnswerQuery(ts, query, connectionUrl, execute);
      var effects := [ExecuteMetadata(MetadataConnectionUrl, insert)] + answer;
      PrependNotFinish(effects[0], answer);
      assert effects[|effects| - 1] == answer[|answer| - 1];
      effects
  }

  /** `SqlQueryHandler.post`, with the clock reading `ts` and the executor's
      answers as inputs: `executeMetadata` for the metadata INSERT and
      `execute` for the user's query. */
  function SqlQueryPost(request: QueryRequest, ts: nat, executeMetadata: (string, string) -> QueryOutcome,
                        execute: (string, string) -> QueryOutcome): (effects: seq<Effect>)
    ensures NothingAfterFinish(effects) && |effects| > 0
    ensures effects[|effects| - 1].Finish? || effects[|effects| - 1].Raise?
    ensures request.QueryDecodeFailed? ==> effects == [Finish(Some(Responses.Error(request.reason)))]
    ensures request.QueryDecoded? ==>
              var metadata := MetadataQueryBuilder(request.connectionUrl, request.query, ts);
              effects == RunQuery(metadata.0, metadata.1, request.query, request.connectionUrl, executeMetadata, execute)
              && ReadInsert(metadata.0) == Some((request.query, ts, request.connectionUrl))
  {
    match request
    case QueryDecodeFailed(reason) => DecodeFailure(reason)
    case QueryDecoded(query, connectionUrl) =>
      var metadata := MetadataQueryBuilder(connectionUrl, query, ts);
      RunQuery(metadata.0, metadata.1, query, connectionUrl, executeMetadata, execute)
  }

  /** What the three other POST handlers decode: a connection URL (and a table name). */
  datatype StructureRequest = StructureDecodeFailed(reason: string) | StructureDecoded(connectionUrl: string)

  /** `StructureHandler.post`, with the executor's answer as input. */
  function StructurePost(request: StructureRequest,
                         getDatabaseObjects: string -> Result<Responses.DatabaseObjects>): (effects: seq<Effect>)
    ensures |effects| == 1 && effects[0].Finish? && effects[0].body.Some?
    ensures request.StructureDecodeFailed? ==> effects == [Finish(Some(Responses.Error(request.reason)))]
    ensures request.StructureDecoded? && getDatabaseObjects(request.connectionUrl).Ok? ==>
              effects[0].body.value == Responses.SuccessWithDatabaseObjects(getDatabaseObjects(request.connectionUrl).value)
    ensures request.StructureDecoded? && getDatabaseObjects(request.connectionUrl).Failed? ==>
              effects[0].body.value == Responses.Error(getDatabaseObjects(request.connectionUrl).message)
  {
    match request
    case StructureDecodeFailed(reason) => DecodeFailure(reason)
    case StructureDecoded(url) =>
      match getDatabaseObjects(url)
      case Ok(objects) => [Finish(Some(Responses.SuccessWithDatabaseObjects(objects)))]
      case Failed(m) => [Finish(Some(Responses.Error(m)))]
  }

  /** A value, or the text of the exception raised computing it. */
  datatype Result<T> = Ok(value: T) | Failed(message: string)

  /** `SchemaStructureHandler.post`, with the executor's answer as input. */
  function SchemaStructurePost(request: StructureRequest,
                               getSchemaObjects: string -> Result<seq<string>>): (effects: seq<Effect>)
    ensures |effects| == 1 && effects[0].Finish? && effects[0].body.Some?
    ensures request.StructureDecodeFailed? ==> effects == [Finish(Some(Responses.Error(request.reason)))]
    ensures request.StructureDecoded? && getSchemaObjects(request.connectionUrl).Ok? ==>
              effects[0].body.value == Responses.SuccessWithSchemaObjects(getSchemaObjects(request.connectionUrl).value)
    ensures request.StructureDecoded? && getSchemaObjects(request.connectionUrl).Failed? ==>
              effects[0].body.value == Responses.Error(getSchemaObjects(request.connectionUrl).message)
  {
    match request
    case StructureDecodeFailed(reason) => DecodeFailure(reason)
    case StructureDecoded(url) =>
      match getSchemaObjects(url)
      case Ok(schemas) => [Finish(Some(Responses.SuccessWithSchemaObjects(schemas)))]
      case Failed(m) => [Finish(Some(Responses.Error(m)))]
  }

  datatype TableRequest = TableDecodeFailed(reason: string) | TableDecoded(connectionUrl: string, table: string)

  /** `TableStructureHandler.post`, with the executor's answer as input. */
  function TableStructurePost(request: TableRequest,
                              getTableSummary: (string, string) -> QueryOutcome): (effects: seq<Effect>)
    ensures |effects| == 1 && effects[0].Finish? && effects[0].body.Some?
    ensures request.TableDecodeFailed? ==> effects == [Finish(Some(Responses.Error(request.reason)))]
    ensures request.TableDecoded? ==>
              match getTableSummary(request.connectionUrl, request.table)
              case Executed(_, keys, rows) => effects[0].body.value == Responses.SuccessWithRows(keys, rows)
              case Raised(m) => effects[0].body.value == Responses.Error(m)
  {
    match request
    case TableDecodeFailed(reason) => DecodeFailure(reason)
    case TableDecoded(url, table) =>
      match getTableSummary(url, table)
      case Executed(_, keys, rows) => [Finish(Some(Responses.SuccessWithRows(keys, rows)))]
      case Raised(m) => [Finish(Some(Responses.Error(m)))]
  }

  /* ---------------------------------------------------------------------- */
  /* HistoryHandler.get                                                      */
  /* ---------------------------------------------------------------------- */

  const BufSize: nat := 4096

  const MissingParameterMessage: string := "Connection URL or File Name is needed."

  /** The value the handler takes for a query parameter: the first one given. */
  function FirstValue(args: map<string, seq<string>>, key: string): (r: Option<string>)
    requires forall k :: k in args ==> |args[k]| > 0
    ensures r.Some? <==> key in args
  {
    if key in args then Some(args[key][0]) else None
  }

  /** The loop over `self.request.arguments`: remembers the first value of
      `fileName` and of `connectionUrl`. Tornado gives every present
      parameter at least one value. */
  method ReadArguments(args: map<string, seq<string>>) returns (fileName: Option<string>, connectionUrl: Option<string>)
    requires forall k :: k in args ==> |args[k]| > 0
    ensures fileName == FirstValue(args, "fileName")
    ensures connectionUrl == FirstValue(args, "connectionUrl")
  {
    fileName, connectionUrl := None, None;
    var remaining := args.Keys;
    while remaining != {}
      invariant remaining <= args.Keys
      invariant fileName == if "fileName" in args && "fileName" !in remaining then Some(args["fileName"][0]) else None
      invariant connectionUrl == if "connectionUrl" in args && "connectionUrl" !in remaining
                                 then Some(args["connectionUrl"][0]) else None
      decreases remaining
    {
      var k :| k in remaining;
      if k == "fileName" {
        fileName := Some(args[k][0]);
      }
      if k == "connectionUrl" {
        connectionUrl := Some(args[k][0]);
      }
      remaining := remaining - {k};
    }
  }

  /** The pieces `f.read(4096)` returns until it returns the empty string. */
  function Chunks(content: string): seq<string>
    decreases |content|
  {
    if content == [] then []
    else
      var n := if |content| < BufSize then |content| else BufSize;
      [content[..n]] + Chunks(content[n..])
  }

  function Concat(chunks: seq<string>): string {
    if chunks == [] then [] else chunks[0] + Concat(chunks[1..])
  }

  /** The file is read in ceil(length / 4096) pieces. */
  lemma {:induction false} ChunksCount(content: string)
    ensures |Chunks(content)| == (|content| + BufSize - 1) / BufSize
    decreases |content|
  {
    if content != [] {
      var n := if |content| < BufSize then |content| else BufSize;
      ChunksCount(content[n..]);
    }
  }

  /** The chunks put together give the file back. */
  lemma {:induction false} ChunksConcat(content: string)
    ensures Concat(Chunks(content)) == content
    decreases |content|
  {
    if content != [] {
      var n := if |content| < BufSize then |content| else BufSize;
      ChunksConcat(content[n..]);
      assert ([content[..n]] + Chunks(content[n..]))[1..] == Chunks(content[n..]);
      assert content[..n] + content[n..] == content;
    }
  }

  /** No chunk is empty or longer than the buffer, and only the last is shorter. */
  lemma {:induction false} ChunksSizes(content: string)
    ensures forall i :: 0 <= i < |Chunks(content)| ==> 0 < |Chunks(content)[i]| <= BufSize
    ensures forall i :: 0 <= i < |Chunks(content)| - 1 ==> |Chunks(content)[i]| == BufSize
    decreases |content|
  {
    if content != [] {
      var n := if |content| < BufSize then |content| else BufSize;
      ChunksSizes(content[n..]);
      var cs := Chunks(content);
      assert cs == [content[..n]] + Chunks(content[n..]);
      assert n < BufSize ==> content[n..] == [];
    }
  }

  /** One read from position `pos` yields the next chunk. */
  lemma ChunksFrom(content: string, pos: nat, end: nat)
    requires pos < |content| && end == (if |content| - pos < BufSize then |content| else pos + BufSize)
    ensures Chunks(content[pos..]) == [content[pos..end]] + Chunks(content[end..])
  {
    assert content[pos..][..end - pos] == content[pos..end];
    assert content[pos..][end - pos..] == content[end..];
  }

  /** The download loop: reads at most 4096 characters at a time from the
      position reached so far and writes each non-empty piece. */
  method StreamFile(content: string) returns (chunks: seq<string>)
    ensures chunks == Chunks(content)
    ensures Concat(chunks) == content
    ensures forall i :: 0 <= i < |chunks| ==> 0 < |chunks[i]| <= BufSize
    ensures forall i :: 0 <= i < |chunks| - 1 ==> |chunks[i]| == BufSize
  {
    chunks := [];
    var pos := 0;
    while true
      invariant 0 <= pos <= |content|
      invariant chunks + Chunks(content[pos..]) == Chunks(content)
      decreases |content| - pos
    {
      var end := if |content| - pos < BufSize then |content| else pos + BufSize;
      var data := content[pos..end];
      if data == [] {
        break;
      }
      ChunksFrom(content, pos, end);
      chunks := chunks + [data];
      pos := end;
    }
    assert Chunks(content[pos..]) == [];
    assert chunks + [] == chunks;
    ChunksConcat(content);
    ChunksSizes(content);
  }

  /** `f'queries/{requested_file_name}'`: Python prints a missing name as `None`. */
  function DownloadPath(fileName: Option<string>): string {
    "queries/" + match fileName case Some(name) => name case None => "None"
  }

  /** The reply to a missing parameter: status 400 and the error body. */
  function BadRequest(): (r: seq<Effect>)
    ensures |r| == 2 && r[0] == SetStatus(400) && r[1].Finish? && r[1].body.Some? && r[1].body.value.JObject?
    ensures r[1].body.value.fields.Keys == {"error"} && r[1].body.value.fields["error"] == JString(MissingParameterMessage)
  {
    [SetStatus(400), Finish(Some(JObject(map["error" := JString(MissingParameterMessage)])))]
  }

  /** The history branch: run the history query, answer with its records. */
  function HistoryBranch(connectionUrl: string, execute: (string, string) -> QueryOutcome): (r: seq<Effect>)
    ensures |r| == 2 && r[0].Execute? && r[0].connectionUrl == MetadataConnectionUrl
    ensures ReadHistoryFilter(r[0].sql) == Some(StringValue(connectionUrl))
    ensures r[1].Finish? && r[1].body.Some?
    ensures var outcome := execute(MetadataConnectionUrl, r[0].sql);
            && (outcome.Raised? ==> r[1].body.value == Responses.Error(outcome.message))
            && (outcome.Executed? ==> r[1].body.value == Responses.HistorySuccessResponse(outcome.keys, outcome.rows))
  {
    var sql := HistoryQuery(connectionUrl);
    var response := match execute(MetadataConnectionUrl, sql)
      case Raised(m) => Responses.Error(m)
      case Executed(_, keys, rows) => Responses.HistorySuccessResponse(keys, rows);
    [Execute(MetadataConnectionUrl, sql), Finish(Some(response))]
  }

  /** The download branch: two headers, then the file in chunks; a file that
      is not there makes `open` raise. */
  function DownloadBranch(fileName: Option<string>, files: map<string, string>): (r: seq<Effect>)
    ensures var path := DownloadPath(fileName);
            && |r| >= 3
            && r[..2] == [SetHeader("Content-Type", "application/octet-stream"),
                          SetHeader("Content-Disposition", "attachment; filename=" + path)]
            && (path in files ==> r[2..|r| - 1] == Writes(Chunks(files[path])) && r[|r| - 1] == Finish(None))
            && (path !in files ==> |r| == 3 && r[2] == Raise("FileNotFoundError"))
  {
    var path := DownloadPath(fileName);
    var headers := [SetHeader("Content-Type", "application/octet-stream"),
                    SetHeader("Content-Disposition", "attachment; filename=" + path)];
    if path in files then
      var ws := Writes(Chunks(files[path]));
      var r := headers + ws + [Finish(None)];
      assert r[..2] == headers && r[2..|r| - 1] == ws;
      r
    else
      headers + [Raise("FileNotFoundError")]
  }

  function Writes(chunks: seq<string>): (r: seq<Effect>)
    ensures |r| == |chunks| && forall i :: 0 <= i < |r| ==> r[i] == Write(chunks[i])
  {
    if chunks == [] then [] else [Write(chunks[0])] + Writes(chunks[1..])
  }

  /** `HistoryHandler.get` as written: after answering 400 it does not
      return, and goes on into the download branch. */
  function HistoryGetAsWritten(fileName: Option<string>, connectionUrl: Option<string>,
                               execute: (string, string) -> QueryOutcome, files: map<string, string>): seq<Effect>
  {
    (if connectionUrl.None? && fileName.None? then BadRequest() else [])
    + if connectionUrl.Some? then HistoryBranch(connectionUrl.value, execute) else DownloadBranch(fileName, files)
  }

  /** With no parameters at all, the handler as written keeps acting after `finish`. */
  lemma HistoryGetAsWrittenActsAfterFinish(execute: (string, string) -> QueryOutcome, files: map<string, string>)
    ensures var effects := HistoryGetAsWritten(None, None, execute, files);
            effects[1].Finish? && effects[2] == SetHeader("Content-Type", "application/octet-stream")
            && !NothingAfterFinish(effects)
  {
  }

  /** `HistoryHandler.get` on the parameters it found: 400 when neither is
      given; the history branch whenever `connectionUrl` is given; otherwise
      the download of `queries/<fileName>`. */
  function HistoryGetEffects(fileName: Option<string>, connectionUrl: Option<string>,
                             execute: (string, string) -> QueryOutcome, files: map<string, string>): (r: seq<Effect>)
    ensures |r| > 0
    ensures r[0] == SetStatus(400) <==> connectionUrl.None? && fileName.None?
    ensures r[0].Execute? <==> connectionUrl.Some?
    ensures r[0].SetHeader? <==> connectionUrl.None? && fileName.Some?
  {
    if connectionUrl.None? && fileName.None? then BadRequest()
    else if connectionUrl.Some? then HistoryBranch(connectionUrl.value, execute)
    else DownloadBranch(fileName, files)
  }

  /** The download branch finishes last, or ends on a missing file. */
  lemma DownloadFinishesOnce(fileName: Option<string>, files: map<string, string>)
    ensures var effects := DownloadBranch(fileName, files);
            && NothingAfterFinish(effects) && |effects| > 0
            && (effects[|effects| - 1].Finish? || effects[|effects| - 1] == Raise("FileNotFoundError"))
  {
    var effects := DownloadBranch(fileName, files);
    var path := DownloadPath(fileName);
    if path in files {
      var ws := Writes(Chunks(files[path]));
      forall i | 0 <= i < |effects| - 1 ensures !effects[i].Finish? {
        if i >= 2 { assert effects[i] == effects[2..|effects| - 1][i - 2] == ws[i - 2]; }
        else { assert effects[i] == effects[..2][i]; }
      }
    }
  }

  /** The handler answers once and stops: `finish` is last when it happens,
      and only a missing file ends the run without it. */
  lemma HistoryGetFinishesOnce(fileName: Option<string>, connectionUrl: Option<string>,
                               execute: (string, string) -> QueryOutcome, files: map<string, string>)
    ensures var effects := HistoryGetEffects(fileName, connectionUrl, execute, files);
            && NothingAfterFinish(effects) && |effects| > 0
            && (effects[|effects| - 1].Finish? || effects[|effects| - 1] == Raise("FileNotFoundError"))
  {
    if connectionUrl.None? && fileName.Some? {
      DownloadFinishesOnce(fileName, files);
    }
  }

  /** `HistoryHandler.get`: reads the parameters, then answers; the file
      content is streamed by the download loop. */
  method HistoryGet(args: map<string, seq<string>>, execute: (string, string) -> QueryOutcome,
                    files: map<string, string>) returns (effects: seq<Effect>)
    requires forall k :: k in args ==> |args[k]| > 0
    ensures effects == HistoryGetEffects(FirstValue(args, "fileName"), FirstValue(args, "connectionUrl"), execute, files)
    ensures "connectionUrl" !in args && "fileName" !in args ==>
              effects == [SetStatus(400), Finish(Some(JObject(map["error" := JString("Connection URL or File Name is needed.")])))]
    ensures "connectionUrl" in args ==>
              effects[0] == Execute("sqlite:///metadata.db", HistoryQuery(args["connectionUrl"][0]))
  {
    var fileName, connectionUrl := ReadArguments(args);
    if connectionUrl == None && fileName == None {
      effects := BadRequest();
      return;
    }
    if connectionUrl.Some? {
      effects := HistoryBranch(connectionUrl.value, execute);
    } else {
      var path := DownloadPath(fileName);
      effects := [SetHeader("Content-Type", "application/octet-stream"),
                  SetHeader("Content-Disposition", "attachment; filename=" + path)];
      if path in files {
        var chunks := StreamFile(files[path]);
        effects := effects + Writes(chunks) + [Finish(None)];
      } else {
        effects := effects + [Raise("FileNotFoundError")];
      }
    }
  }

  /* ---------------------------------------------------------------------- */
  /* Routes                                                                  */
  /* ---------------------------------------------------------------------- */

  datatype HandlerKind = SqlQueryHandler | StructureHandler | TableStructureHandler | SchemaStructureHandler | HistoryHandler

  datatype Route = Route(pattern: string, handler: HandlerKind)

  const Endpoints: seq<string> := ["query", "database", "table", "schema", "history"]

  /** `form_route(web_app, endpoint)`; `join` is jupyter_server's `url_path_join`. */
  function FormRoute(baseUrl: string, endpoint: string, join: (string, string, string) -> string): string {
    join(baseUrl, "/jupyterlab-sql/", endpoint)
  }

  /** The route table `register_handlers` installs. */
  function RegisterHandlers(baseUrl: string, join: (string, string, string) -> string): (routes: seq<Route>)
    ensures |routes| == 5
    ensures forall i :: 0 <= i < 5 ==> routes[i].pattern == join(baseUrl, "/jupyterlab-sql/", Endpoints[i])
    ensures forall i, j :: 0 <= i < j < 5 ==> routes[i].handler != routes[j].handler
    ensures routes[0].handler == SqlQueryHandler && routes[1].handler == StructureHandler
    ensures routes[2].handler == TableStructureHandler && routes[3].handler == SchemaStructureHandler
    ensures routes[4].handler == HistoryHandler
  {
    [Route(FormRoute(baseUrl, "query", join), SqlQueryHandler),
     Route(FormRoute(baseUrl, "database", join), StructureHandler),
     Route(FormRoute(baseUrl, "table", join), TableStructureHandler),
     Route(FormRoute(baseUrl, "schema", join), SchemaStructureHandler),
     Route(FormRoute(baseUrl, "history", join), HistoryHandler)]
  }

  /** A path segment as `url_path_join` keeps it: non-empty and without a
      slash, so that stripping slashes leaves it as it is. */
  predicate PlainSegment(e: string) {
    e != "" && '/' !in e
  }

  /** When the join keeps distinct plain segments apart, no two routes share
      a pattern: the five endpoints are distinct plain segments. */
  lemma RoutesDistinct(baseUrl: string, join: (string, string, string) -> string)
    requires forall e1, e2 :: e1 != e2 && PlainSegment(e1) && PlainSegment(e2) ==>
               join(baseUrl, "/jupyterlab-sql/", e1) != join(baseUrl, "/jupyterlab-sql/", e2)
    ensures var routes := RegisterHandlers(baseUrl, join);
            forall i, j :: 0 <= i < j < 5 ==> routes[i].pattern != routes[j].pattern
  {
    assert forall i, j :: 0 <= i < j < 5 ==> Endpoints[i] != Endpoints[j];
    assert forall i :: 0 <= i < 5 ==> PlainSegment(Endpoints[i]);
  }
}
