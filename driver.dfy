/**
 * The remote driver: each operation builds one tagged request body, hands it to
 * the server, applies the error check to the parsed reply and shapes the result.
 * The network round-trip is a function parameter standing for the server.
 */
module Driver {
  import opened Wrappers
  import opened Transform

  /** A JSON value as JavaScript sees it after parsing, plus `undefined`.
      Numbers are modelled as reals, with NaN apart. */
  datatype JsValue =
    | Undefined
    | Null
    | Bool(b: bool)
    | Number(n: real)
    | NaN
    | Str(s: string)
    | Array(items: seq<JsValue>)
    | Object(entries: seq<(string, JsValue)>)

  /** The falsy values, listed as ECMA-262 lists them. */
  const Falsy: set<JsValue> := {Undefined, Null, Bool(false), Number(0.0), NaN, Str("")}

  /** JavaScript truthiness (ToBoolean, section 7.1.2 of ECMA-262): a value is
      truthy exactly when it is not one of the listed falsy values. */
  predicate Truthy(v: JsValue): (t: bool)
    ensures t <==> v !in Falsy
  {
    match v
    case Undefined => false
    case Null => false
    case Bool(b) => b
    case Number(n) => n != 0.0
    case NaN => false
    case Str(s) => s != ""
    case Array(_) => true
    case Object(_) => true
  }

  /** The options `selectTable` reads. */
  datatype SelectOptions = SelectOptions(limit: int, offset: int, whereRaw: Option<string>)

  /** The operation body sent to the server; `S` is the statement type and `Op`
      the row-operation type, both passed through untouched. */
  datatype RequestBody<S, Op> =
    | QueryBody(statement: S)
    | BatchBody(statements: seq<S>)
    | SchemasBody
    | SchemaBody(tableName: string)
    | UpdateTableDataBody(ops: seq<Op>, tableName: string)
    | SelectTableBody(tableName: string, limit: int, offset: int, whereRaw: Option<string>)
  {
    /** The `type` field of the body; each of the six tags belongs to exactly
        one variant, so the tag tells the operation. */
    function Tag(): (t: string)
      ensures (t == "query") == QueryBody?
      ensures (t == "batch") == BatchBody?
      ensures (t == "schemas") == SchemasBody?
      ensures (t == "schema") == SchemaBody?
      ensures (t == "update-table-data") == UpdateTableDataBody?
      ensures (t == "select-table") == SelectTableBody?
    {
      match this
      case QueryBody(_) => "query"
      case BatchBody(_) => "batch"
      case SchemasBody => "schemas"
      case SchemaBody(_) => "schema"
      case UpdateTableDataBody(_, _) => "update-table-data"
      case SelectTableBody(_, _, _, _) => "select-table"
    }
  }

  /** One call to the server: the database it is addressed to, the bearer token
      it carries, and the body. */
  datatype Call<S, Op> = Call(databaseId: string, authToken: string, body: RequestBody<S, Op>)

  /** The parsed reply: JSON `null`, or an object with its `error` field
      (`Undefined` when absent), its `data` field and the rest of its fields. */
  datatype Reply<D, X> = NullReply | Envelope(error: JsValue, data: D, rest: X)

  /** Why an operation throws: the server's error value, or reading `data` of a
      `null` reply. */
  datatype Failure = ServerError(error: JsValue) | DataOfNull

  /** The driver; its fields are set once by the constructor. */
  class RemoteDriver {
    const id: string
    const authToken: string
    const name: string

    constructor (id: string, authToken: string, name: string)
      ensures this.id == id && this.authToken == authToken && this.name == name
    {
      this.id := id;
      this.authToken := authToken;
      this.name := name;
    }

    /** `request`: send the body, then throw on a truthy `error` field;
        anything else is returned as it was parsed. */
    function Request<S, Op, D, X>(body: RequestBody<S, Op>, server: Call<S, Op> -> Reply<D, X>): (r: Result<Reply<D, X>, Failure>)
      ensures var json := server(Call(id, authToken, body));
        && (r.Failure? <==> json.Envelope? && Truthy(json.error))
        && (r.Failure? ==> r.error == ServerError(json.error))
        && (r.Success? ==> r.value == json)
    {
      var json := server(Call(id, authToken, body));
      if json.Envelope? && Truthy(json.error) then Failure(ServerError(json.error)) else Success(json)
    }

    /** `query`: one statement; the reply's `data` is transformed. */
    function Query<S, Op, V, M, X>(stmt: S, server: Call<S, Op> -> Reply<RawResultSet<V, M>, X>): (r: Result<ResultSet<V, M>, Failure>)
      ensures match server(Call(id, authToken, QueryBody(stmt)))
        case NullReply => r == Failure(DataOfNull)
        case Envelope(e, d, _) => r == if Truthy(e) then Failure(ServerError(e)) else Success(Transformed(d))
    {
      match Request(QueryBody(stmt), server)
      case Failure(f) => Failure(f)
      case Success(json) => if json.NullReply? then Failure(DataOfNull) else Success(Transformed(json.data))
    }

    /** `transaction`: a batch of statements; each result set of `data` is transformed. */
    function Transaction<S, Op, V, M, X>(stmts: seq<S>, server: Call<S, Op> -> Reply<seq<RawResultSet<V, M>>, X>): (r: Result<seq<ResultSet<V, M>>, Failure>)
      ensures match server(Call(id, authToken, BatchBody(stmts)))
        case NullReply => r == Failure(DataOfNull)
        case Envelope(e, d, _) => r == if Truthy(e) then Failure(ServerError(e)) else Success(TransformAll(d))
    {
      match Request(BatchBody(stmts), server)
      case Failure(f) => Failure(f)
      case Success(json) => if json.NullReply? then Failure(DataOfNull) else Success(TransformAll(json.data))
    }

    /** `schemas`: the reply's `data`, untouched. */
    function Schemas<S, Op, I, X>(server: Call<S, Op> -> Reply<seq<I>, X>): (r: Result<seq<I>, Failure>)
      ensures match server(Call(id, authToken, SchemasBody))
        case NullReply => r == Failure(DataOfNull)
        case Envelope(e, d, _) => r == if Truthy(e) then Failure(ServerError(e)) else Success(d)
    {
      match Request(SchemasBody, server)
      case Failure(f) => Failure(f)
      case Success(json) => if json.NullReply? then Failure(DataOfNull) else Success(json.data)
    }

    /** `tableSchema`: the reply's `data`, untouched. */
    function TableSchema<S, Op, T, X>(tableName: string, server: Call<S, Op> -> Reply<T, X>): (r: Result<T, Failure>)
      ensures match server(Call(id, authToken, SchemaBody(tableName)))
        case NullReply => r == Failure(DataOfNull)
        case Envelope(e, d, _) => r == if Truthy(e) then Failure(ServerError(e)) else Success(d)
    {
      match Request(SchemaBody(tableName), server)
      case Failure(f) => Failure(f)
      case Success(json) => if json.NullReply? then Failure(DataOfNull) else Success(json.data)
    }

    /** `updateTableData`: the whole parsed reply, not only its `data`. */
    function UpdateTableData<S, Op, D, X>(tableName: string, ops: seq<Op>, server: Call<S, Op> -> Reply<D, X>): (r: Result<Reply<D, X>, Failure>)
      ensures var json := server(Call(id, authToken, UpdateTableDataBody(ops, tableName)));
        r == if json.Envelope? && Truthy(json.error) then Failure(ServerError(json.error)) else Success(json)
    {
      Request(UpdateTableDataBody(ops, tableName), server)
    }

    /** `selectTable`: `limit`, `offset` and `whereRaw` are copied from the
        options; the whole parsed reply is returned. */
    function SelectTable<S, Op, D, X>(tableName: string, options: SelectOptions, server: Call<S, Op> -> Reply<D, X>): (r: Result<Reply<D, X>, Failure>)
      ensures var json := server(Call(id, authToken, SelectTableBody(tableName, options.limit, options.offset, options.whereRaw)));
        r == if json.Envelope? && Truthy(json.error) then Failure(ServerError(json.error)) else Success(json)
    {
      Request(SelectTableBody(tableName, options.limit, options.offset, options.whereRaw), server)
    }
  }

  // ---------------------------------------------------------------------------
  // Properties

  /** An empty-string error is falsy: the reply passes the check. */
  lemma EmptyErrorPasses<S, Op, D, X>(driver: RemoteDriver, body: RequestBody<S, Op>, server: Call<S, Op> -> Reply<D, X>)
    requires server(Call(driver.id, driver.authToken, body)).Envelope?
    requires server(Call(driver.id, driver.authToken, body)).error == Str("")
    ensures driver.Request(body, server) == Success(server(Call(driver.id, driver.authToken, body)))
  {
  }

  /** A query that succeeds returns the server's columns and other fields, one
      record per raw row in order, each keyed by exactly the column names. */
  lemma QueryShape<S, Op, V, M, X>(driver: RemoteDriver, stmt: S, server: Call<S, Op> -> Reply<RawResultSet<V, M>, X>)
    requires driver.Query(stmt, server).Success?
    ensures var raw := server(Call(driver.id, driver.authToken, QueryBody(stmt))).data;
      var res := driver.Query(stmt, server).value;
      && res.columns == raw.columns && res.meta == raw.meta
      && |res.rows| == |raw.rows|
      && forall k :: 0 <= k < |raw.rows| ==>
           res.rows[k] == RowOf(raw.columns, raw.rows[k]) && res.rows[k].Keys == set c | c in raw.columns
  {
    var raw := server(Call(driver.id, driver.authToken, QueryBody(stmt))).data;
    TransformedShape(raw);
    TransformedKeys(raw);
  }

  /** A transaction that succeeds returns one transformed result set per element
      of the server's `data`, in the same order. */
  lemma TransactionKeepsOrder<S, Op, V, M, X>(driver: RemoteDriver, stmts: seq<S>, server: Call<S, Op> -> Reply<seq<RawResultSet<V, M>>, X>)
    requires driver.Transaction(stmts, server).Success?
    ensures var data := server(Call(driver.id, driver.authToken, BatchBody(stmts))).data;
      var res := driver.Transaction(stmts, server).value;
      && |res| == |data|
      && forall k :: 0 <= k < |data| ==> res[k] == Transformed(data[k])
  {
    var data := server(Call(driver.id, driver.authToken, BatchBody(stmts))).data;
    forall k | 0 <= k < |data|
      ensures TransformAll(data)[k] == Transformed(data[k])
    {
      TransformAllAt(data, k);
    }
  }

  /** A reply whose data has columns ["a", "b"] and rows [[1, 2], [3, 4]] makes
      `query` return the records {a: 1, b: 2} and {a: 3, b: 4}, columns unchanged. */
  lemma QueryExample<S, Op, M, X>(driver: RemoteDriver, stmt: S, meta: M, rest: X, server: Call<S, Op> -> Reply<RawResultSet<int, M>, X>)
    requires server(Call(driver.id, driver.authToken, QueryBody(stmt)))
      == Envelope(Undefined, RawResultSet(["a", "b"], [[1, 2], [3, 4]], meta), rest)
    ensures driver.Query(stmt, server)
      == Success(ResultSet(["a", "b"], [map["a" := Some(1), "b" := Some(2)], map["a" := Some(3), "b" := Some(4)]], meta))
  {
    var raw := RawResultSet(["a", "b"], [[1, 2], [3, 4]], meta);
    assert raw.rows[..1] == [[1, 2]];
    assert RowOf(raw.columns, [1, 2]) == map["a" := Some(1), "b" := Some(2)];
    assert RowOf(raw.columns, [3, 4]) == map["a" := Some(3), "b" := Some(4)];
    assert raw.rows[..2][..1] == [[1, 2]];
    assert MapRows(raw.columns, raw.rows) == [RowOf(raw.columns, [1, 2]), RowOf(raw.columns, [3, 4])];
  }
}
