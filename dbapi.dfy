/**
 * The DB-API collaborator the dialect is handed: a connection that opens
 * cursors, and cursors that execute one catalog statement, report a row count,
 * hand out rows and can be closed. The database behind them is a parameter:
 * how it answers each statement is given, not computed.
 */
module DbApi {
  import opened Wrappers
  import opened Rows

  /** The catalog statements of radio_duck.queries. Their SQL text is not part
      of this model, so each is an opaque name. */
  datatype CatalogQuery =
    | HasIndexQuery | HasTableQuery | HasSequenceQuery
    | TablesQuery | ViewsQuery | TempTablesQuery | TempViewsQuery | SequencesQuery
    | ViewSqlQuery | ConstraintsQuery | IndexesQuery | ColumnsQuery | CheckConstraintQuery

  /** A statement with its positional (`?`-style) parameters. */
  datatype Statement = Statement(query: CatalogQuery, parameters: seq<Value>)

  /** The database's answer to one statement: a row count, the result rows and
      the message of the exception that reading them raises, if it does; or the
      exception the statement itself raises. */
  datatype Reply = Answer(rowcount: int, rows: seq<Row>, fetchError: Option<string>) | Raised(message: string)

  /** The database behind a connection: whether `cursor()` fails, and the answer
      it gives to each statement. */
  datatype Database = Database(cursorError: Option<string>, answer: Statement -> Reply)

  class Cursor {
    const answer: Statement -> Reply
    var closed: bool
    var rowcount: int
    /** The result rows not fetched yet. */
    var pending: seq<Row>
    /** The exception a fetch raises on this cursor's result, if any. */
    var fetchError: Option<string>
    /** Every statement executed on this cursor, in order. */
    var executed: seq<Statement>

    constructor (answer: Statement -> Reply)
      ensures this.answer == answer
      ensures !closed && rowcount == -1 && pending == [] && fetchError == None && executed == []
    {
      this.answer := answer;
      closed, rowcount, pending, fetchError, executed := false, -1, [], None, [];
    }

    /** `cursor.execute(sql, parameters=...)`. */
    method Execute(query: CatalogQuery, parameters: seq<Value>) returns (r: Outcome<Error>)
      requires !closed
      modifies this
      ensures !closed
      ensures executed == old(executed) + [Statement(query, parameters)]
      ensures answer(Statement(query, parameters)).Answer? ==>
        && r == Pass
        && rowcount == answer(Statement(query, parameters)).rowcount
        && pending == answer(Statement(query, parameters)).rows
        && fetchError == answer(Statement(query, parameters)).fetchError
      ensures answer(Statement(query, parameters)).Raised? ==>
        && r == Fail(DriverError(answer(Statement(query, parameters)).message))
        && rowcount == old(rowcount) && pending == old(pending) && fetchError == old(fetchError)
    {
      var stmt := Statement(query, parameters);
      executed := executed + [stmt];
      match answer(stmt)
      case Answer(n, rows, e) =>
        rowcount, pending, fetchError := n, rows, e;
        r := Pass;
      case Raised(m) =>
        r := Fail(DriverError(m));
    }

    /** `cursor.fetchall()`: every row not fetched yet, or the driver's exception. */
    method FetchAll() returns (rows: Result<seq<Row>, Error>)
      requires !closed
      modifies this`pending
      ensures fetchError.Some? ==> rows == Failure(DriverError(fetchError.value)) && pending == old(pending)
      ensures fetchError.None? ==> rows == Success(old(pending)) && pending == []
    {
      if fetchError.Some? {
        return Failure(DriverError(fetchError.value));
      }
      rows := Success(pending);
      pending := [];
    }

    /** `cursor.fetchone()`: the next row, or `None` when there is none, or the
        driver's exception. */
    method FetchOne() returns (row: Result<Option<Row>, Error>)
      requires !closed
      modifies this`pending
      ensures fetchError.Some? ==> row == Failure(DriverError(fetchError.value)) && pending == old(pending)
      ensures fetchError.None? && old(pending) == [] ==> row == Success(None) && pending == []
      ensures fetchError.None? && old(pending) != [] ==>
        row == Success(Some(old(pending)[0])) && pending == old(pending)[1..]
    {
      if fetchError.Some? {
        return Failure(DriverError(fetchError.value));
      }
      if pending == [] {
        row := Success(None);
      } else {
        row := Success(Some(pending[0]));
        pending := pending[1..];
      }
    }

    /** `cursor.close()`. */
    method Close()
      modifies this`closed
      ensures closed
    {
      closed := true;
    }
  }

  class Connection {
    const database: Database
    /** Every cursor this connection has handed out, in order. */
    ghost var cursors: seq<Cursor>

    constructor (database: Database)
      ensures this.database == database && cursors == []
    {
      this.database := database;
      cursors := [];
    }

    /** `connection.cursor()`: a fresh open cursor, or the driver's exception. */
    method OpenCursor() returns (r: Result<Cursor, Error>)
      modifies this`cursors
      ensures database.cursorError.Some? ==>
        r == Failure(DriverError(database.cursorError.value)) && cursors == old(cursors)
      ensures database.cursorError.None? ==>
        && r.Success? && fresh(r.value)
        && r.value.answer == database.answer
        && !r.value.closed && r.value.pending == [] && r.value.executed == []
        && r.value.rowcount == -1 && r.value.fetchError == None
        && cursors == old(cursors) + [r.value]
    {
      if database.cursorError.Some? {
        return Failure(DriverError(database.cursorError.value));
      }
      var c := new Cursor(database.answer);
      cursors := cursors + [c];
      r := Success(c);
    }
  }

  /** What one introspection call did to `conn`, whose cursors were `before`:
      when a cursor could be opened, it opened exactly one, executed exactly
      `stmt` on it and closed it; otherwise it opened none. */
  ghost predicate ClosedAfterOne(conn: Connection, before: seq<Cursor>, stmt: Statement)
    reads conn, conn.cursors
  {
    if conn.database.cursorError.Some? then conn.cursors == before
    else
      && |conn.cursors| == |before| + 1
      && conn.cursors[..|before|] == before
      && conn.cursors[|before|].closed
      && conn.cursors[|before|].executed == [stmt]
  }

  /** The result of an introspection call that reads only the row count: the
      driver's exception when the cursor cannot be opened or the statement
      raises, else `shape` applied to the row count and the rows of the answer. */
  ghost function Served<T>(db: Database, stmt: Statement, shape: (int, seq<Row>) -> Result<T, Error>): Result<T, Error> {
    if db.cursorError.Some? then Failure(DriverError(db.cursorError.value))
    else
      match db.answer(stmt)
      case Raised(m) => Failure(DriverError(m))
      case Answer(n, rows, _) => shape(n, rows)
  }

  /** The result of an introspection call that fetches rows: as `Served`, but
      also the driver's exception when reading the rows raises. */
  ghost function ServedRows<T>(db: Database, stmt: Statement, shape: (int, seq<Row>) -> Result<T, Error>): Result<T, Error> {
    if db.cursorError.Some? then Failure(DriverError(db.cursorError.value))
    else
      match db.answer(stmt)
      case Raised(m) => Failure(DriverError(m))
      case Answer(_, _, Some(m)) => Failure(DriverError(m))
      case Answer(n, rows, None) => shape(n, rows)
  }
}
