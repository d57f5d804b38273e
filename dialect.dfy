/**
 * RadioDuckDialect: the introspection methods (has_* and get_*), the
 * post-processing of index rows, the connection arguments, disconnect
 * detection, the fixed isolation level and the unsupported transaction calls.
 */
module Dialect {
  import opened Wrappers
  import opened Text
  import opened IndexSql
  import opened Rows
  import opened DbApi

  /** The database's default schema. */
  const DefaultSchema: string := "main"

  /** `if schema is None or "" == schema.strip(): schema = "main"`, done at the
      top of every schema-taking method but `get_temp_view_names`, which
      ignores its schema. */
  function SchemaOrDefault(schema: Option<string>): (r: string)
    ensures schema.None? ==> r == DefaultSchema
    ensures schema.Some? && IsBlank(schema.value) ==> r == DefaultSchema
    ensures schema.Some? && !IsBlank(schema.value) ==> r == schema.value
  {
    if schema.None? || "" == Strip(schema.value) then DefaultSchema else schema.value
  }

  // ---- how each method turns the cursor's row count and rows into its result

  function First(rows: seq<Row>): Option<Row> {
    if rows == [] then None else Some(rows[0])
  }

  /** `cursor.rowcount == 1` */
  function ExactlyOne(rowcount: int, rows: seq<Row>): Result<bool, Error> {
    Success(rowcount == 1)
  }

  function AllValues(rowcount: int, rows: seq<Row>): Result<seq<Value>, Error> {
    Success(Flatten(rows))
  }

  function ViewDefinitionOf(rowcount: int, rows: seq<Row>): Result<Value, Error> {
    ViewDefinition(First(rows))
  }

  function PrimaryKeyOf(rowcount: int, rows: seq<Row>): Result<seq<Dict>, Error> {
    PrimaryKey(First(rows))
  }

  function ColumnsOf(rowcount: int, rows: seq<Row>): Result<seq<Dict>, Error> {
    Records(ColumnKeys, rows)
  }

  function ConstraintsOf(rowcount: int, rows: seq<Row>): Result<seq<Dict>, Error> {
    Records(ConstraintKeys, rows)
  }

  function ChecksOf(rowcount: int, rows: seq<Row>): Result<seq<Dict>, Error> {
    Records(CheckKeys, rows)
  }

  function IndexesOf(rowcount: int, rows: seq<Row>): Result<seq<Dict>, Error> {
    match Records(IndexKeys, rows)
    case Failure(e) => Failure(e)
    case Success(maps) =>
      assert forall k :: 0 <= k < |maps| ==> "sql" in maps[k] by {
        assert IndexKeys[1] == "sql";
      }
      IndexEntries(maps)
  }

  // ---- the try/finally around each catalog query

  /** The exception a call raises before any row is read: opening the cursor
      failed, or the statement raised. */
  ghost function Refusal(db: Database, stmt: Statement): Option<Error> {
    if db.cursorError.Some? then Some(DriverError(db.cursorError.value))
    else if db.answer(stmt).Raised? then Some(DriverError(db.answer(stmt).message))
    else None
  }

  /** `cursor = connection.cursor(); cursor.execute(stmt)`. On success the cursor
      is open and holds the answer; on failure any cursor opened is closed
      already, as the `finally` clause of every `has_*`/`get_*` method does. */
  method Open(conn: Connection, stmt: Statement) returns (r: Result<Cursor, Error>)
    modifies conn`cursors
    ensures r.Failure? <==> Refusal(conn.database, stmt).Some?
    ensures r.Failure? ==> r.error == Refusal(conn.database, stmt).value
    ensures r.Failure? ==> ClosedAfterOne(conn, old(conn.cursors), stmt)
    ensures r.Success? ==>
      && conn.database.cursorError.None? && conn.database.answer(stmt).Answer?
      && fresh(r.value) && !r.value.closed
      && conn.cursors == old(conn.cursors) + [r.value]
      && r.value.executed == [stmt]
      && r.value.rowcount == conn.database.answer(stmt).rowcount
      && r.value.pending == conn.database.answer(stmt).rows
      && r.value.fetchError == conn.database.answer(stmt).fetchError
  {
    var got := conn.OpenCursor();
    if got.Failure? {
      return Failure(got.error);
    }
    var cursor := got.value;
    var ran := cursor.Execute(stmt.query, stmt.parameters);
    if ran.Fail? {
      cursor.Close();
      return Failure(ran.error);
    }
    r := Success(cursor);
  }

  // ---- has_* methods

  method HasIndex(conn: Connection, tableName: string, indexName: string, schema: Option<string>)
    returns (r: Result<bool, Error>)
    modifies conn`cursors
    ensures ClosedAfterOne(conn, old(conn.cursors),
      Statement(HasIndexQuery, [Str(SchemaOrDefault(schema)), Str(tableName), Str(indexName)]))
    ensures r == Served(conn.database,
      Statement(HasIndexQuery, [Str(SchemaOrDefault(schema)), Str(tableName), Str(indexName)]), ExactlyOne)
  {
    var cursor :- Open(conn, Statement(HasIndexQuery, [Str(SchemaOrDefault(schema)), Str(tableName), Str(indexName)]));
    r := Success(cursor.rowcount == 1);
    cursor.Close();
  }

  method HasTable(conn: Connection, tableName: string, schema: Option<string>)
    returns (r: Result<bool, Error>)
    modifies conn`cursors
    ensures ClosedAfterOne(conn, old(conn.cursors),
      Statement(HasTableQuery, [Str(SchemaOrDefault(schema)), Str(tableName)]))
    ensures r == Served(conn.database,
      Statement(HasTableQuery, [Str(SchemaOrDefault(schema)), Str(tableName)]), ExactlyOne)
  {
    var cursor :- Open(conn, Statement(HasTableQuery, [Str(SchemaOrDefault(schema)), Str(tableName)]));
    r := Success(cursor.rowcount == 1);
    cursor.Close();
  }

  method HasSequence(conn: Connection, sequenceName: string, schema: Option<string>)
    returns (r: Result<bool, Error>)
    modifies conn`cursors
    ensures ClosedAfterOne(conn, old(conn.cursors),
      Statement(HasSequenceQuery, [Str(SchemaOrDefault(schema)), Str(sequenceName)]))
    ensures r == Served(conn.database,
      Statement(HasSequenceQuery, [Str(SchemaOrDefault(schema)), Str(sequenceName)]), ExactlyOne)
  {
    var cursor :- Open(conn, Statement(HasSequenceQuery, [Str(SchemaOrDefault(schema)), Str(sequenceName)]));
    r := Success(cursor.rowcount == 1);
    cursor.Close();
  }

  // ---- name listers

  /** Runs a name-listing statement and flattens its rows. */
  method ListNames(conn: Connection, stmt: Statement) returns (r: Result<seq<Value>, Error>)
    modifies conn`cursors
    ensures ClosedAfterOne(conn, old(conn.cursors), stmt)
    ensures r == ServedRows(conn.database, stmt, AllValues)
  {
    var cursor :- Open(conn, stmt);
    var rows := cursor.FetchAll();
    if rows.Failure? {
      cursor.Close();
      return Failure(rows.error);
    }
    r := Success(Flatten(rows.value));
    cursor.Close();
  }

  method GetTableNames(conn: Connection, schema: Option<string>) returns (r: Result<seq<Value>, Error>)
    modifies conn`cursors
    ensures ClosedAfterOne(conn, old(conn.cursors), Statement(TablesQuery, [Str(SchemaOrDefault(schema))]))
    ensures r == ServedRows(conn.database, Statement(TablesQuery, [Str(SchemaOrDefault(schema))]), AllValues)
  {
    r := ListNames(conn, Statement(TablesQuery, [Str(SchemaOrDefault(schema))]));
  }

  method GetViewNames(conn: Connection, schema: Option<string>) returns (r: Result<seq<Value>, Error>)
    modifies conn`cursors
    ensures ClosedAfterOne(conn, old(conn.cursors), Statement(ViewsQuery, [Str(SchemaOrDefault(schema))]))
    ensures r == ServedRows(conn.database, Statement(ViewsQuery, [Str(SchemaOrDefault(schema))]), AllValues)
  {
    r := ListNames(conn, Statement(ViewsQuery, [Str(SchemaOrDefault(schema))]));
  }

  /** Temporary views live in a schema of their own: `schema` is ignored and the
      statement has no parameters. */
  method GetTempViewNames(conn: Connection, schema: Option<string>) returns (r: Result<seq<Value>, Error>)
    modifies conn`cursors
    ensures ClosedAfterOne(conn, old(conn.cursors), Statement(TempViewsQuery, []))
    ensures r == ServedRows(conn.database, Statement(TempViewsQuery, []), AllValues)
  {
    r := ListNames(conn, Statement(TempViewsQuery, []));
  }

  /** Unlike temporary views, temporary tables are queried with the schema. */
  method GetTempTableNames(conn: Connection, schema: Option<string>) returns (r: Result<seq<Value>, Error>)
    modifies conn`cursors
    ensures ClosedAfterOne(conn, old(conn.cursors), Statement(TempTablesQuery, [Str(SchemaOrDefault(schema))]))
    ensures r == ServedRows(conn.database, Statement(TempTablesQuery, [Str(SchemaOrDefault(schema))]), AllValues)
  {
    r := ListNames(conn, Statement(TempTablesQuery, [Str(SchemaOrDefault(schema))]));
  }

  method GetSequenceNames(conn: Connection, schema: Option<string>) returns (r: Result<seq<Value>, Error>)
    modifies conn`cursors
    ensures ClosedAfterOne(conn, old(conn.cursors), Statement(SequencesQuery, [Str(SchemaOrDefault(schema))]))
    ensures r == ServedRows(conn.database, Statement(SequencesQuery, [Str(SchemaOrDefault(schema))]), AllValues)
  {
    r := ListNames(conn, Statement(SequencesQuery, [Str(SchemaOrDefault(schema))]));
  }

  // ---- single-row lookups

  method GetViewDefinition(conn: Connection, viewName: string, schema: Option<string>)
    returns (r: Result<Value, Error>)
    modifies conn`cursors
    ensures ClosedAfterOne(conn, old(conn.cursors), Statement(ViewSqlQuery, [Str(SchemaOrDefault(schema)), Str(viewName)]))
    ensures r == ServedRows(conn.database, Statement(ViewSqlQuery, [Str(SchemaOrDefault(schema)), Str(viewName)]), ViewDefinitionOf)
  {
    var cursor :- Open(conn, Statement(ViewSqlQuery, [Str(SchemaOrDefault(schema)), Str(viewName)]));
    var row := cursor.FetchOne();
    if row.Failure? {
      cursor.Close();
      return Failure(row.error);
    }
    r := ViewDefinition(row.value);
    cursor.Close();
  }

  method GetPkConstraint(conn: Connection, tableName: string, schema: Option<string>)
    returns (r: Result<seq<Dict>, Error>)
    modifies conn`cursors
    ensures ClosedAfterOne(conn, old(conn.cursors),
      Statement(ConstraintsQuery, [Str(SchemaOrDefault(schema)), Str(tableName), Str("PRIMARY KEY")]))
    ensures r == ServedRows(conn.database,
      Statement(ConstraintsQuery, [Str(SchemaOrDefault(schema)), Str(tableName), Str("PRIMARY KEY")]), PrimaryKeyOf)
  {
    var cursor :- Open(conn, Statement(ConstraintsQuery, [Str(SchemaOrDefault(schema)), Str(tableName), Str("PRIMARY KEY")]));
    var row := cursor.FetchOne();
    if row.Failure? {
      cursor.Close();
      return Failure(row.error);
    }
    r := PrimaryKey(row.value);
    cursor.Close();
  }

  // ---- row-to-record methods

  /** Runs a statement and builds one record per row under `keys`. */
  method FetchRecords(conn: Connection, stmt: Statement, keys: seq<string>) returns (r: Result<seq<Dict>, Error>)
    requires Distinct(keys)
    modifies conn`cursors
    ensures ClosedAfterOne(conn, old(conn.cursors), stmt)
    ensures r == ServedRows(conn.database, stmt, (n, rows) => Records(keys, rows))
  {
    var cursor :- Open(conn, stmt);
    var rows := cursor.FetchAll();
    if rows.Failure? {
      cursor.Close();
      return Failure(rows.error);
    }
    r := Records(keys, rows.value);
    cursor.Close();
  }

  method GetUniqueConstraints(conn: Connection, tableName: string, schema: Option<string>)
    returns (r: Result<seq<Dict>, Error>)
    modifies conn`cursors
    ensures ClosedAfterOne(conn, old(conn.cursors),
      Statement(ConstraintsQuery, [Str(SchemaOrDefault(schema)), Str(tableName), Str("UNIQUE")]))
    ensures r == ServedRows(conn.database,
      Statement(ConstraintsQuery, [Str(SchemaOrDefault(schema)), Str(tableName), Str("UNIQUE")]), ConstraintsOf)
  {
    r := FetchRecords(conn, Statement(ConstraintsQuery, [Str(SchemaOrDefault(schema)), Str(tableName), Str("UNIQUE")]), ConstraintKeys);
  }

  method GetForeignKeys(conn: Connection, tableName: string, schema: Option<string>)
    returns (r: Result<seq<Dict>, Error>)
    modifies conn`cursors
    ensures ClosedAfterOne(conn, old(conn.cursors),
      Statement(ConstraintsQuery, [Str(SchemaOrDefault(schema)), Str(tableName), Str("FOREIGN KEY")]))
    ensures r == ServedRows(conn.database,
      Statement(ConstraintsQuery, [Str(SchemaOrDefault(schema)), Str(tableName), Str("FOREIGN KEY")]), ConstraintsOf)
  {
    r := FetchRecords(conn, Statement(ConstraintsQuery, [Str(SchemaOrDefault(schema)), Str(tableName), Str("FOREIGN KEY")]), ConstraintKeys);
  }

  method GetColumns(conn: Connection, tableName: string, schema: Option<string>)
    returns (r: Result<seq<Dict>, Error>)
    modifies conn`cursors
    ensures ClosedAfterOne(conn, old(conn.cursors), Statement(ColumnsQuery, [Str(SchemaOrDefault(schema)), Str(tableName)]))
    ensures r == ServedRows(conn.database, Statement(ColumnsQuery, [Str(SchemaOrDefault(schema)), Str(tableName)]), ColumnsOf)
  {
    r := FetchRecords(conn, Statement(ColumnsQuery, [Str(SchemaOrDefault(schema)), Str(tableName)]), ColumnKeys);
  }

  method GetCheckConstraints(conn: Connection, tableName: string, schema: Option<string>)
    returns (r: Result<seq<Dict>, Error>)
    modifies conn`cursors
    ensures ClosedAfterOne(conn, old(conn.cursors), Statement(CheckConstraintQuery, [Str(SchemaOrDefault(schema)), Str(tableName)]))
    ensures r == ServedRows(conn.database, Statement(CheckConstraintQuery, [Str(SchemaOrDefault(schema)), Str(tableName)]), ChecksOf)
  {
    r := FetchRecords(conn, Statement(CheckConstraintQuery, [Str(SchemaOrDefault(schema)), Str(tableName)]), CheckKeys);
  }

  // ---- get_indexes

  /** One turn of the loop of get_indexes: `mp["column_names"]` is set from the
      SQL text and `mp["sql"]` deleted; `re.search` raises `TypeError` when the
      SQL text is not a string. */
  function IndexEntry(mp: Dict): (r: Result<Dict, Error>)
    requires "sql" in mp
    ensures r.Success? <==> mp["sql"].Str?
    ensures r.Failure? ==> r.error == TypeError
  {
    if !mp["sql"].Str? then Failure(TypeError)
    else Success(mp["column_names" := Strs(ColumnNames(mp["sql"].s))] - {"sql"})
  }

  /** A post-processed entry has lost its `sql` key, has gained `column_names`
      parsed from the SQL text, and keeps every other key and value. */
  lemma IndexEntryShape(mp: Dict)
    requires "sql" in mp && mp["sql"].Str?
    ensures
      var d := IndexEntry(mp).value;
      && d.Keys == mp.Keys - {"sql"} + {"column_names"}
      && d["column_names"] == Strs(ColumnNames(mp["sql"].s))
      && forall key :: key in mp && key != "sql" && key != "column_names" ==> d[key] == mp[key]
  {
  }

  /** The whole loop of get_indexes: a `TypeError` as soon as some entry raises
      one, else every entry post-processed, in order. */
  function IndexEntries(maps: seq<Dict>): (r: Result<seq<Dict>, Error>)
    requires forall k :: 0 <= k < |maps| ==> "sql" in maps[k]
    ensures r.Success? <==> forall k :: 0 <= k < |maps| ==> IndexEntry(maps[k]).Success?
    ensures r.Failure? ==> r.error == TypeError
    ensures r.Success? ==> |r.value| == |maps|
    ensures r.Success? ==> forall k :: 0 <= k < |maps| ==> r.value[k] == IndexEntry(maps[k]).value
  {
    if forall k :: 0 <= k < |maps| ==> maps[k]["sql"].Str? then
      Success(seq(|maps|, k requires 0 <= k < |maps| && maps[k]["sql"].Str? => IndexEntry(maps[k]).value))
    else
      Failure(TypeError)
  }

  /** The body of the loop of get_indexes for one dict `mp`. */
  method AttachOne(mp: Dict) returns (r: Result<Dict, Error>)
    requires "sql" in mp
    ensures r == IndexEntry(mp)
  {
    var entry := mp["column_names" := List([])];
    var sql := entry["sql"];
    if !sql.Str? {
      return Failure(TypeError);
    }
    var group := Group(sql.s);
    if group.Some? {
      entry := entry["column_names" := Strs(StripAll(Split(group.value, ',')))];
    }
    entry := entry - {"sql"};
    EntryStep(mp, entry);
    r := Success(entry);
  }

  /** `for mp in list_of_maps: ...`, the loop of get_indexes, replacing each
      dict of the list by its post-processed form. */
  method AttachColumnNames(maps: seq<Dict>) returns (r: Result<seq<Dict>, Error>)
    requires forall k :: 0 <= k < |maps| ==> "sql" in maps[k]
    ensures r == IndexEntries(maps)
  {
    var out := maps;
    var i := 0;
    while i < |out|
      invariant 0 <= i <= |out| == |maps|
      invariant forall k :: 0 <= k < i ==> IndexEntry(maps[k]).Success? && out[k] == IndexEntry(maps[k]).value
      invariant forall k :: i <= k < |out| ==> out[k] == maps[k]
    {
      var entry := AttachOne(out[i]);
      if entry.Failure? {
        return entry.PropagateFailure();
      }
      out := out[i := entry.value];
      i := i + 1;
    }
    assert IndexEntries(maps).value == out;
    r := Success(out);
  }

  /** The loop body computes IndexEntry. */
  lemma EntryStep(before: Dict, after: Dict)
    requires "sql" in before && before["sql"].Str?
    requires
      var withNames := before["column_names" := List([])];
      var group := Group(before["sql"].s);
      after == if group.Some?
        then withNames["column_names" := Strs(StripAll(Split(group.value, ',')))] - {"sql"}
        else withNames - {"sql"}
    ensures IndexEntry(before) == Success(after)
  {
    var sql := before["sql"].s;
    var names := ColumnNames(sql);
    var group := Group(sql);
    if group.None? {
      assert names == [];
      assert Strs(names) == List([]);
      assert after == before["column_names" := Strs(names)] - {"sql"};
    } else {
      assert names == StripAll(Split(group.value, ','));
      OverrideTwice(before, "column_names", List([]), Strs(names));
    }
  }

  lemma OverrideTwice(m: Dict, key: string, a: Value, b: Value)
    ensures m[key := a][key := b] == m[key := b]
  {
    assert m[key := a][key := b].Keys == m[key := b].Keys;
  }

  method GetIndexes(conn: Connection, tableName: string, schema: Option<string>)
    returns (r: Result<seq<Dict>, Error>)
    modifies conn`cursors
    ensures ClosedAfterOne(conn, old(conn.cursors), Statement(IndexesQuery, [Str(SchemaOrDefault(schema)), Str(tableName)]))
    ensures r == ServedRows(conn.database, Statement(IndexesQuery, [Str(SchemaOrDefault(schema)), Str(tableName)]), IndexesOf)
  {
    r := FetchIndexes(conn, Statement(IndexesQuery, [Str(SchemaOrDefault(schema)), Str(tableName)]));
  }

  /** Runs the indexes statement and post-processes its rows. */
  method FetchIndexes(conn: Connection, stmt: Statement) returns (r: Result<seq<Dict>, Error>)
    modifies conn`cursors
    ensures ClosedAfterOne(conn, old(conn.cursors), stmt)
    ensures r == ServedRows(conn.database, stmt, IndexesOf)
  {
    var cursor :- Open(conn, stmt);
    var rows := cursor.FetchAll();
    if rows.Failure? {
      cursor.Close();
      return Failure(rows.error);
    }
    r := ShapeIndexes(cursor.rowcount, rows.value);
    cursor.Close();
  }

  /** The body of the `try` of get_indexes after the fetch: the dict per row,
      then the loop over the dicts. */
  method ShapeIndexes(rowcount: int, rows: seq<Row>) returns (r: Result<seq<Dict>, Error>)
    ensures r == IndexesOf(rowcount, rows)
  {
    var maps := Records(IndexKeys, rows);
    if maps.Failure? {
      r := Failure(maps.error);
    } else {
      assert IndexKeys[1] == "sql";
      r := AttachColumnNames(maps.value);
    }
  }

  /** What get_indexes returns for the rows of its query: an error exactly when
      a row has fewer than three values (`IndexError`) or an SQL text that is not
      a string (`TypeError`); otherwise one record per row holding the row's
      name and unique flag and the column names parsed from its SQL text, and
      no `sql` key. */
  lemma IndexRecords(rowcount: int, rows: seq<Row>)
    ensures IndexesOf(rowcount, rows).Success? <==>
      forall i :: 0 <= i < |rows| ==> |rows[i]| >= 3 && rows[i][1].Str?
    ensures IndexesOf(rowcount, rows).Success? ==>
      var records := IndexesOf(rowcount, rows).value;
      && |records| == |rows|
      && forall i :: 0 <= i < |rows| ==> IndexRecordOf(records[i], rows[i])
  {
    if forall i :: 0 <= i < |rows| ==> |rows[i]| >= 3 && rows[i][1].Str? {
      IndexRecordsOfGoodRows(rowcount, rows);
    } else {
      var k :| 0 <= k < |rows| && !(|rows[k]| >= 3 && rows[k][1].Str?);
      IndexRecordsOfBadRow(rowcount, rows, k);
    }
  }

  lemma IndexRecordsOfGoodRows(rowcount: int, rows: seq<Row>)
    requires forall i :: 0 <= i < |rows| ==> |rows[i]| >= 3 && rows[i][1].Str?
    ensures IndexesOf(rowcount, rows).Success?
    ensures
      var records := IndexesOf(rowcount, rows).value;
      && |records| == |rows|
      && forall i :: 0 <= i < |rows| ==> IndexRecordOf(records[i], rows[i])
  {
    var maps := Records(IndexKeys, rows).value;
    forall i | 0 <= i < |rows| ensures IndexMapOf(maps[i], rows[i]) {
      IndexMap(rows[i]);
    }
    var entries := IndexEntries(maps);
    assert IndexesOf(rowcount, rows) == entries;
    assert entries.Success?;
    forall i | 0 <= i < |rows| ensures IndexRecordOf(entries.value[i], rows[i]) {
      EntryOfRow(maps[i], rows[i]);
    }
  }

  lemma IndexRecordsOfBadRow(rowcount: int, rows: seq<Row>, k: nat)
    requires k < |rows| && !(|rows[k]| >= 3 && rows[k][1].Str?)
    ensures IndexesOf(rowcount, rows).Failure?
  {
    var maps := Records(IndexKeys, rows);
    if maps.Success? {
      IndexMapValues(rows[k]);
      assert !maps.value[k]["sql"].Str?;
      assert IndexesOf(rowcount, rows) == IndexEntries(maps.value);
    }
  }

  /** A record of get_indexes for `row`: its name and unique flag, the column
      names parsed from its SQL text, and nothing else. */
  ghost predicate IndexRecordOf(d: Dict, row: Row) {
    && |row| >= 3 && row[1].Str?
    && d.Keys == {"name", "unique", "column_names"}
    && d["name"] == row[0]
    && d["unique"] == row[2]
    && d["column_names"] == Strs(ColumnNames(row[1].s))
  }

  lemma EntryOfRow(mp: Dict, row: Row)
    requires IndexMapOf(mp, row) && row[1].Str?
    ensures IndexEntry(mp).Success? && IndexRecordOf(IndexEntry(mp).value, row)
  {
    IndexEntryShape(mp);
    var d := IndexEntry(mp).value;
    assert d.Keys == {"name", "sql", "unique"} - {"sql"} + {"column_names"};
    assert d.Keys == {"name", "unique", "column_names"};
  }

  /** The dict `{"name": row[0], "sql": row[1], "unique": row[2]}`. */
  ghost predicate IndexMapOf(d: Dict, row: Row) {
    && |row| >= 3
    && d.Keys == {"name", "sql", "unique"}
    && d["name"] == row[0] && d["sql"] == row[1] && d["unique"] == row[2]
  }

  lemma IndexMap(row: Row)
    requires |row| >= 3
    ensures IndexMapOf(Record(IndexKeys, row), row)
  {
    IndexMapKeys(row);
    IndexMapValues(row);
  }

  lemma IndexMapKeys(row: Row)
    requires |row| >= 3
    ensures Record(IndexKeys, row).Keys == {"name", "sql", "unique"}
  {
    KeysOfThree(IndexKeys, Record(IndexKeys, row));
    assert IndexKeys[0] == "name" && IndexKeys[1] == "sql" && IndexKeys[2] == "unique";
  }

  lemma KeysOfThree(keys: seq<string>, d: Dict)
    requires |keys| == 3
    requires forall k :: k in d <==> k in keys
    ensures d.Keys == {keys[0], keys[1], keys[2]}
  {
    forall k | k in d ensures k == keys[0] || k == keys[1] || k == keys[2] {
      var p :| 0 <= p < 3 && keys[p] == k;
    }
  }

  lemma IndexMapValues(row: Row)
    requires |row| >= 3
    ensures Record(IndexKeys, row)["name"] == row[0]
    ensures Record(IndexKeys, row)["sql"] == row[1]
    ensures Record(IndexKeys, row)["unique"] == row[2]
  {
    assert IndexKeys[0] == "name" && IndexKeys[1] == "sql" && IndexKeys[2] == "unique";
  }

  // ---- connection arguments

  /** A connection URL as the toolkit hands it over: its components already
      translated to keyword arguments (by `url.translate_connect_args()`), and
      its query-string parameters. */
  datatype Url = Url(components: map<string, Value>, query: map<string, Value>)

  /** create_connect_args: no positional arguments; the keyword arguments are
      the URL components, updated by the query map, whose values win. */
  method CreateConnectArgs(url: Url) returns (args: seq<Value>, opts: map<string, Value>)
    ensures args == []
    ensures opts.Keys == url.components.Keys + url.query.Keys
    ensures forall k :: k in url.query ==> opts[k] == url.query[k]
    ensures forall k :: k in url.components && k !in url.query ==> opts[k] == url.components[k]
  {
    opts := url.components;
    opts := opts + url.query;   // opts.update(url.query)
    args := [];
  }

  // ---- disconnect detection

  /** is_disconnect, for an error given by its string form (`None` for no
      error); `marker` is the driver's connection-closed message. */
  function IsDisconnect(error: Option<string>, marker: string): (r: bool)
    ensures error.None? ==> !r
    ensures error.Some? ==> (r <==> exists i :: OccursAt(marker, error.value, i))
  {
    if error.None? then false
    else
      ContainsIff(error.value, marker);
      Contains(error.value, marker)
  }

  // ---- isolation level and transaction control

  /** The one isolation level the database offers over this transport. */
  const IsolationLevel: string := "SNAPSHOT"

  function GetDefaultIsolationLevel(): (r: string)
    ensures r == "SNAPSHOT"
  {
    IsolationLevel
  }

  /** The current level is always the default one: nothing can change it. */
  function GetIsolationLevel(): (r: string)
    ensures r == GetDefaultIsolationLevel()
  {
    IsolationLevel
  }

  /** The transaction-control and other calls that do no introspection. */
  datatype DialectCall =
    | DoBegin | DoCommit | DoRollback
    | ResetIsolationLevel | SetIsolationLevel(level: string)
    | DoSavepoint(name: string) | DoRollbackToSavepoint(name: string) | DoReleaseSavepoint(name: string)
    | DoBeginTwoPhase(xid: string) | DoPrepareTwoPhase(xid: string)
    | DoCommitTwoPhase(xid: string, isPrepared: bool, recover: bool) | DoRecoverTwoPhase
    | CreateXid
    | GetTableComment(tableName: string, schema: Option<string>)

  /** The calls whose body is `pass`. */
  predicate IsNoOp(call: DialectCall) {
    call.DoBegin? || call.DoCommit? || call.DoRollback? || call.ResetIsolationLevel? || call.SetIsolationLevel?
  }

  /** The message of the NotSupportedError that create_xid raises. */
  const NoTransactionsMessage := "transactions not supported over http yet"

  /** What each of these calls does: the no-ops return normally, `create_xid`
      raises NotSupportedError, and all the others raise NotImplementedError. */
  function Perform(call: DialectCall): (r: Outcome<Error>)
    ensures r == Pass <==> IsNoOp(call)
    ensures call.CreateXid? <==> r == Fail(NotSupported(NoTransactionsMessage))
    ensures !IsNoOp(call) && !call.CreateXid? <==> r == Fail(NotImplemented)
  {
    match call
    case DoBegin => Pass
    case DoCommit => Pass
    case DoRollback => Pass
    case ResetIsolationLevel => Pass
    case SetIsolationLevel(_) => Pass
    case CreateXid => Fail(NotSupported(NoTransactionsMessage))
    case _ => Fail(NotImplemented)
  }
}
