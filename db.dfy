/**
 * What the relational proxy routes share: the shapes of a pg query result,
 * driver errors, the routes' JSON replies, and the database they talk to,
 * with its connection pool reduced to a count of checked-out connections.
 */
module Db {
  import opened Optional
  import opened Json

  /** A result row: column name to value. */
  type Row = map<string, Json>

  /** One entry of a pg result's `fields`. */
  datatype Field = Field(name: string, tableID: int, columnID: int, dataTypeID: int, format: string)

  /** One entry of a reply's `columns`. */
  datatype Column = Column(name: string, dataTypeID: int)

  /** What `client.query` resolves to. */
  datatype QueryResult = QueryResult(rows: seq<Row>, fields: seq<Field>, rowCount: Option<int>)

  /**
   * What `client.query` resolves to for raw text: one result, or, when the
   * text holds several statements, an array of results, one per statement.
   */
  datatype RawAnswer = OneResult(result: QueryResult) | ManyResults(results: seq<QueryResult>)

  /** An error the driver throws: its SQLSTATE `code` ("" when it has none) and `message`. */
  datatype DbError = DbError(code: string, message: string)

  /** Where, if anywhere, the driver throws while one request is handled. */
  datatype Fault = NoFault | AtConnect(error: DbError) | AtStatement(index: nat, error: DbError)
  {
    predicate FailsConnect()
    {
      AtConnect?
    }

    /** The `k`-th statement of the request (from 0) throws. */
    predicate FailsStatement(k: nat)
    {
      AtStatement? && index == k
    }
  }

  /** A bound parameter: a JSON value, or the `NaN` that arithmetic on non-numbers yields. */
  datatype Param = Value(v: Json) | NaN

  /** A statement sent to the database: SQL text and its bound parameters. */
  datatype Statement = Statement(sql: string, params: seq<Param>)

  /** The routes' replies. */
  datatype RouteResponse =
    | RowsReply(data: seq<Row>, columns: seq<Column>, rowCount: Option<int>)  // {success: true, data, columns, rowCount}
    | RowReply(row: Row)                                                       // {success: true, data: rows[0]}
    | Failure(status: int, error: string)                                      // {success: false, error}, with that status
  {
    function Status(): int
    {
      if Failure? then status else 200
    }
  }

  /** `fields.map(f => ({name: f.name, dataTypeID: f.dataTypeID}))`. */
  function Columns(fields: seq<Field>): (cols: seq<Column>)
    ensures |cols| == |fields|
    ensures forall i :: 0 <= i < |fields| ==> cols[i].name == fields[i].name && cols[i].dataTypeID == fields[i].dataTypeID
  {
    if fields == [] then [] else [Column(fields[0].name, fields[0].dataTypeID)] + Columns(fields[1..])
  }

  /** The reply of the two SELECT routes: the rows, their column descriptors, and the row count. */
  function RowsResponse(r: QueryResult): (resp: RouteResponse)
    ensures resp.Status() == 200 && resp.RowsReply?
    ensures resp.data == r.rows && resp.rowCount == r.rowCount && |resp.columns| == |r.fields|
    ensures forall i :: 0 <= i < |r.fields| ==> resp.columns[i] == Column(r.fields[i].name, r.fields[i].dataTypeID)
  {
    RowsReply(r.rows, Columns(r.fields), r.rowCount)
  }

  /** `error.message || fallback`. */
  function ErrorText(e: DbError, fallback: string): string
  {
    if e.message != [] then e.message else fallback
  }

  class Database {
    /** The posts table: `post_id` to `is_public`. */
    var posts: map<int, bool>
    /** The blacklist table's `user_id` values. */
    var blacklist: set<string>
    /** Connections taken from the pool and not yet released. */
    var checkedOut: nat
    /** Connections taken from the pool so far, released or not. */
    var taken: nat
    /** Every statement executed, oldest first. */
    var log: seq<Statement>

    constructor (posts: map<int, bool>, blacklist: set<string>)
      ensures this.posts == posts && this.blacklist == blacklist && checkedOut == 0 && taken == 0 && log == []
    {
      this.posts := posts;
      this.blacklist := blacklist;
      checkedOut := 0;
      taken := 0;
      log := [];
    }

    /** `pool.connect()`, which throws when the fault says so. */
    method Connect(fault: Fault) returns (ok: bool)
      modifies this
      ensures ok == !fault.FailsConnect()
      ensures checkedOut == old(checkedOut) + (if ok then 1 else 0) && taken == old(taken) + (if ok then 1 else 0)
      ensures posts == old(posts) && blacklist == old(blacklist) && log == old(log)
    {
      ok := !fault.FailsConnect();
      if ok {
        checkedOut := checkedOut + 1;
        taken := taken + 1;
      }
    }

    /** `client.release()`. */
    method Release()
      requires checkedOut > 0
      modifies this
      ensures checkedOut == old(checkedOut) - 1 && taken == old(taken)
      ensures posts == old(posts) && blacklist == old(blacklist) && log == old(log)
    {
      checkedOut := checkedOut - 1;
    }

    /**
     * Sends one of the routes' own parameterised statements; whether it then
     * throws is the caller's fault input. Such a statement reads the tables,
     * and the route that sent an UPDATE or INSERT assigns its effect itself.
     */
    method Send(s: Statement)
      modifies this
      ensures log == old(log) + [s]
      ensures posts == old(posts) && blacklist == old(blacklist) && checkedOut == old(checkedOut) && taken == old(taken)
    {
      log := log + [s];
    }

    /**
     * Sends raw SQL text. The text may hold any statements, so what the
     * tables hold afterwards is the database's to decide and an input here.
     */
    method Execute(s: Statement, postsAfter: map<int, bool>, blacklistAfter: set<string>)
      modifies this
      ensures log == old(log) + [s]
      ensures posts == postsAfter && blacklist == blacklistAfter && checkedOut == old(checkedOut) && taken == old(taken)
    {
      log := log + [s];
      posts := postsAfter;
      blacklist := blacklistAfter;
    }
  }
}
