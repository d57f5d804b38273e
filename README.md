# radio_duck dialect: introspection and row-shaping core

This project models the core of `RadioDuckDialect`, the SQLAlchemy dialect that
lets the toolkit talk to a DuckDB database over HTTP. It covers:

- how every introspection method (`has_*`, `get_*`) except
  `get_temp_view_names`, which ignores its schema, replaces an absent or blank
  schema with `"main"`;
- the one catalog statement each method executes on a cursor of the
  caller's connection, and the guarantee that this cursor is closed on every
  exit path, whether the method returns or raises;
- how the rows of the answer become the result: a boolean from the row count,
  a flat list of names, records built from the rows, the first row or nothing;
- how `get_indexes` recovers column names from an index's `CREATE INDEX` text
  with `re.search(r"\((.*?)\)")`, `split(",")` and `strip()`;
- `create_connect_args`, `is_disconnect`, the fixed `SNAPSHOT` isolation level,
  the transaction stubs and the type-rendering override table.

Modules, one per concern:

- `Wrappers` (wrappers.dfy): `Option`, `Result` and `Outcome`. They stand for
  Python's `None` and for raised exceptions.
- `Text` (text.dfy): the Python string builtins the dialect uses. These are
  `strip()` (whose whitespace is `Text.IsSpace`, Python's `str.isspace`,
  checked against the ASCII list), `split(",")` and the substring test `in`,
  each proved against a description that does not depend on its body. `Text.Join`
  is not used by the dialect; it is there only as the inverse of `split`, to
  pin down what `split` returns.
- `IndexSql` (index_sql.dfy): the lazy regular-expression search and the
  column-name parse of `get_indexes`.
- `Rows` (rows.dfy): row values, dicts, the flattening comprehension and the
  dict-building comprehensions.
- `DbApi` (dbapi.dfy): the DB-API collaborator as classes. `Connection`
  records every cursor it hands out. `Cursor` has `execute`, `rowcount`,
  `fetchall`, `fetchone` and a `closed` flag set by `close()`. How the
  database answers each statement is a parameter (`Database`), not computed:
  opening a cursor may raise, the statement may raise, and reading its rows
  may raise.
- `Dialect` (dialect.dfy): the dialect's methods. Each introspection method is
  proved against `DbApi.Served` or, when it fetches rows, `DbApi.ServedRows`
  (the result it must give for the database's answer), and against
  `DbApi.ClosedAfterOne` (one cursor opened, exactly one statement executed on
  it, the cursor closed).
- `TypeCompiler` (type_compiler.dfy): the override table of
  `RadioDuckDialectTypeCompiler`.

The catalog statements of `radio_duck.queries` are opaque names
(`DbApi.CatalogQuery`). The model checks which statement a method runs and
with which positional parameters, not its SQL text.

Behaviour worth noting:

- `get_temp_table_names` normalises the schema and passes it as a parameter.
  Only `get_temp_view_names` ignores its schema and passes no parameters.
- The regular expression's `.` does not match a line feed. A `(` whose first
  `)` comes after a line feed is therefore skipped, and the search moves on to
  the next `(`. The group runs from the first `(` to the first `)` after it
  only in SQL text without line feeds (`IndexSql.ColumnsWithoutLineFeeds`).
  The general case is `IndexSql.ColumnsOfLeftmostMatch`, and
  `IndexSql.LineFeedExample` shows the difference.
- An empty group `()` gives `column_names == [""]`, not `[]`, because
  `"".split(",")` is `[""]`.
- A row too short for the record built from it raises `IndexError`. An index
  whose SQL text is not a string makes `re.search` raise `TypeError`. In both
  cases the cursor is still closed, as it is when the statement or the fetch
  raises.

## Model

| member | source | states |
|---|---|---|
| `Text.IsSpace` | radio_duck/sqlalchemy.py:244 | the whitespace `strip()` removes, Python's `str.isspace`; on ASCII exactly tab, line feed, vertical tab, form feed, carriage return, the four information separators and space |
| `Text.TrimStart` | radio_duck/sqlalchemy.py:244 | the result is a suffix of the input, every dropped character is whitespace, and the result does not start with whitespace |
| `Text.TrimEnd` | radio_duck/sqlalchemy.py:244 | the result is a prefix of the input, every dropped character is whitespace, and the result does not end with whitespace |
| `Text.Strip` | radio_duck/sqlalchemy.py:244 | `strip()` returns a string that neither starts nor ends with whitespace; it is empty exactly when the input is all whitespace |
| `Text.StripCharacterized` | radio_duck/sqlalchemy.py:439 | any slice with only whitespace outside it, and no whitespace at either end, is what `strip()` returns |
| `Text.StripTrimmed` | radio_duck/sqlalchemy.py:439 | a string with no whitespace at either end strips to itself |
| `Text.StripIdempotent` | radio_duck/sqlalchemy.py:439 | stripping a stripped string changes nothing |
| `Text.Split` | radio_duck/sqlalchemy.py:438 | `split(",")` yields at least one piece, and no piece contains the separator |
| `Text.JoinSplit` | radio_duck/sqlalchemy.py:438 | joining the pieces of `split` with the separator gives the original text back |
| `Text.SplitJoin` | radio_duck/sqlalchemy.py:438 | splitting a join of separator-free pieces gives those pieces back |
| `Text.Contains` | radio_duck/sqlalchemy.py:238 | the substring test `sub in s`: never true when `sub` is longer than `s`, always true for an empty `sub` or for `sub == s`; its exact meaning is `Text.ContainsIff` |
| `Text.ContainsIff` | radio_duck/sqlalchemy.py:238 | the substring test `sub in s` holds exactly when `sub` occurs at some index of `s` |
| `IndexSql.StopAt` | radio_duck/sqlalchemy.py:436 | the lazy `.*?` runs up to the first `)` or line feed, and no further |
| `IndexSql.Search` | radio_duck/sqlalchemy.py:436 | `re.search` finds a match of `\((.*?)\)` and it is the leftmost one; it finds nothing exactly when no position matches |
| `IndexSql.Group` | radio_duck/sqlalchemy.py:436-438 | `match.group(1)`: absent exactly when no position matches; otherwise the text between the parentheses of a match, which holds no `)` and no line feed |
| `IndexSql.GroupOfLeftmostMatch` | radio_duck/sqlalchemy.py:436-438 | `match.group(1)` is the text between the parentheses of the leftmost match, the one `re.search` reports |
| `IndexSql.StripAll` | radio_duck/sqlalchemy.py:439 | one stripped piece per piece, in order |
| `IndexSql.ColumnNames` | radio_duck/sqlalchemy.py:433-440 | every parsed column name is free of commas and of surrounding whitespace |
| `IndexSql.StripKeepsOut` | radio_duck/sqlalchemy.py:439 | stripping adds no character, so a comma-free piece stays comma-free |
| `IndexSql.NoGroupIffNoColumns` | radio_duck/sqlalchemy.py:433-440 | `column_names` is `[]` if and only if the SQL text has no parenthesised group |
| `IndexSql.ColumnsOfLeftmostMatch` | radio_duck/sqlalchemy.py:436-440 | for the leftmost match, `column_names` is the text between its parentheses, split on commas, each piece stripped |
| `IndexSql.ColumnsWithoutLineFeeds` | radio_duck/sqlalchemy.py:436-440 | in SQL text without line feeds, the group runs from the first `(` to the first `)` after it |
| `IndexSql.TwoColumnExample` | radio_duck/sqlalchemy.py:436-440 | `ON t(a, b)` gives `["a", "b"]`, with the whitespace stripped |
| `IndexSql.FunctionalIndexExample` | radio_duck/sqlalchemy.py:436-440 | `t(lower(a), b)` gives `["lower(a"]`: the lazy match stops at the first `)` |
| `IndexSql.EmptyGroupExample` | radio_duck/sqlalchemy.py:436-440 | `t()` gives `[""]` |
| `IndexSql.LineFeedExample` | radio_duck/sqlalchemy.py:436-440 | a line feed inside the first group makes the search use the next `(` |
| `Rows.Strs` | radio_duck/sqlalchemy.py:440 | a list of strings keeps its length and its elements, in order |
| `Rows.Flatten` | radio_duck/sqlalchemy.py:296 | the flattened list has as many values as all rows together |
| `Rows.FlattenAppend` | radio_duck/sqlalchemy.py:296 | flattening keeps the order of the rows: it distributes over concatenation |
| `Rows.FlattenMembers` | radio_duck/sqlalchemy.py:296 | a value is in the result exactly when it is a value of some row |
| `Rows.FlattenOneColumn` | radio_duck/sqlalchemy.py:296 | for one-column rows, the result is the rows' single values, in row order |
| `Rows.Record` | radio_duck/sqlalchemy.py:474-481 | the dict display has exactly the given keys, each mapped to the row value at its position |
| `Rows.Records` | radio_duck/sqlalchemy.py:343-345 | raises `IndexError` exactly when some row is too short; otherwise gives one record per row, in order |
| `Rows.PrimaryKey` | radio_duck/sqlalchemy.py:408-413 | no row gives `[]`; a row gives exactly one record `{name: row[0], column_names: row[1]}`; a short row raises `IndexError`; never more than one record |
| `Rows.ViewDefinition` | radio_duck/sqlalchemy.py:325-326 | no row gives `""`; a row gives its first value; an empty row raises `IndexError` |
| `DbApi.Cursor.constructor` | radio_duck/sqlalchemy.py:247 | a new cursor is open, has executed nothing and holds no rows |
| `DbApi.Cursor.Execute` | radio_duck/sqlalchemy.py:248-250 | appends the statement to the cursor's log; on an answer sets `rowcount` and the pending rows; on a raise, fails with the driver's message |
| `DbApi.Cursor.FetchAll` | radio_duck/sqlalchemy.py:295 | raises the driver's error and keeps the rows when reading fails; otherwise returns every pending row and leaves none |
| `DbApi.Cursor.FetchOne` | radio_duck/sqlalchemy.py:325 | raises the driver's error when reading fails; otherwise returns the next pending row, or `None` when there is none |
| `DbApi.Cursor.Close` | radio_duck/sqlalchemy.py:252-254 | the cursor is closed afterwards |
| `DbApi.Connection.constructor` | radio_duck/sqlalchemy.py:247 | a new connection has handed out no cursors |
| `DbApi.Connection.OpenCursor` | radio_duck/sqlalchemy.py:247 | either raises the driver's error and hands out nothing, or hands out one fresh open cursor and records it |
| `Dialect.SchemaOrDefault` | radio_duck/sqlalchemy.py:244-245 | an absent schema, or one that is all whitespace, becomes `"main"`; any other schema passes through unchanged, unstripped |
| `Dialect.Open` | radio_duck/sqlalchemy.py:246-254 | opens one cursor and executes the statement; on failure the cursor, if opened, is already closed and the driver's error is returned |
| `Dialect.HasIndex` | radio_duck/sqlalchemy.py:242-254 | runs the has-index statement with `[SchemaOrDefault(schema), table, index]`, closes its cursor, and returns `rowcount == 1` |
| `Dialect.HasTable` | radio_duck/sqlalchemy.py:256-266 | runs the has-table statement with `[SchemaOrDefault(schema), table]`, closes its cursor, and returns `rowcount == 1` |
| `Dialect.HasSequence` | radio_duck/sqlalchemy.py:268-282 | runs the has-sequence statement with `[SchemaOrDefault(schema), sequence]`, closes its cursor, and returns `rowcount == 1` |
| `Dialect.ListNames` | radio_duck/sqlalchemy.py:292-300 | runs a name-listing statement and returns the flattened rows, or the driver's error when the cursor, the statement or the fetch raises; its cursor is closed on every path |
| `Dialect.GetTableNames` | radio_duck/sqlalchemy.py:286-300 | runs the tables statement with `[SchemaOrDefault(schema)]`, closes its cursor, and returns all values of all rows, in order |
| `Dialect.GetViewNames` | radio_duck/sqlalchemy.py:302-314 | the same for the views statement |
| `Dialect.GetTempViewNames` | radio_duck/sqlalchemy.py:351-366 | the same for the temporary-views statement, run with no parameters whatever the schema |
| `Dialect.GetTempTableNames` | radio_duck/sqlalchemy.py:368-380 | the same for the temporary-tables statement, run with `[SchemaOrDefault(schema)]` |
| `Dialect.GetSequenceNames` | radio_duck/sqlalchemy.py:385-397 | the same for the sequences statement |
| `Dialect.GetViewDefinition` | radio_duck/sqlalchemy.py:316-329 | runs the view-SQL statement, closes its cursor, and returns `""` for no row, else the row's first value |
| `Dialect.GetPkConstraint` | radio_duck/sqlalchemy.py:399-417 | runs the constraints statement with kind `"PRIMARY KEY"`, closes its cursor, and returns at most one record |
| `Dialect.FetchRecords` | radio_duck/sqlalchemy.py:337-349 | runs a statement and returns one record per row under the given keys, or the driver's error when the cursor, the statement or the fetch raises; its cursor is closed on every path |
| `Dialect.GetUniqueConstraints` | radio_duck/sqlalchemy.py:331-349 | runs the constraints statement with kind `"UNIQUE"`, closes its cursor, and returns `{name, column_names}` records |
| `Dialect.GetForeignKeys` | radio_duck/sqlalchemy.py:448-464 | the same with kind `"FOREIGN KEY"` |
| `Dialect.GetColumns` | radio_duck/sqlalchemy.py:466-488 | runs the columns statement, closes its cursor, and returns `{name, type, nullable, default}` records and no other keys |
| `Dialect.GetCheckConstraints` | radio_duck/sqlalchemy.py:490-510 | runs the check-constraint statement, closes its cursor, and returns `{name, sqltext}` records |
| `Dialect.IndexEntry` | radio_duck/sqlalchemy.py:433-441 | post-processing one index dict fails, with `TypeError`, exactly when its SQL text is not a string |
| `Dialect.IndexEntryShape` | radio_duck/sqlalchemy.py:433-441 | the processed dict has lost `sql`, has gained the parsed `column_names`, and keeps every other key and value |
| `Dialect.IndexEntries` | radio_duck/sqlalchemy.py:431-441 | the loop succeeds exactly when every entry does, and then processes every entry, in order |
| `Dialect.AttachOne` | radio_duck/sqlalchemy.py:433-441 | one turn of the loop over a dict computes exactly its processed form, or the `TypeError` |
| `Dialect.AttachColumnNames` | radio_duck/sqlalchemy.py:431-441 | the in-place loop over the list of dicts computes exactly the processed entries, or the `TypeError` |
| `Dialect.EntryStep` | radio_duck/sqlalchemy.py:433-441 | one loop turn (set `[]`, overwrite on a match, delete `sql`) gives the processed entry |
| `Dialect.GetIndexes` | radio_duck/sqlalchemy.py:419-446 | runs the indexes statement with `[SchemaOrDefault(schema), table]`, closes its cursor on every path, and returns the processed records |
| `Dialect.FetchIndexes` | radio_duck/sqlalchemy.py:423-446 | runs the indexes statement and returns the processed records, or the driver's error when the cursor, the statement or the fetch raises; its cursor is closed on every path |
| `Dialect.ShapeIndexes` | radio_duck/sqlalchemy.py:427-443 | the dicts built from the fetched rows, then the loop over them, give exactly what get_indexes returns for those rows |
| `Dialect.IndexRecords` | radio_duck/sqlalchemy.py:427-443 | for the rows of an answered query, get_indexes fails exactly when a row is short or has a non-string SQL text; otherwise each record has exactly the keys `name`, `unique` and `column_names`, with the row's name and unique flag |
| `Dialect.IndexMap` | radio_duck/sqlalchemy.py:428 | the intermediate dict is `{name: row[0], sql: row[1], unique: row[2]}` |
| `Dialect.IndexMapKeys` | radio_duck/sqlalchemy.py:428 | the intermediate dict has exactly the keys `name`, `sql` and `unique` |
| `Dialect.IndexMapValues` | radio_duck/sqlalchemy.py:428 | the intermediate dict holds the row's first three values |
| `Dialect.EntryOfRow` | radio_duck/sqlalchemy.py:431-441 | processing the intermediate dict of a row gives that row's final index record |
| `Dialect.CreateConnectArgs` | radio_duck/sqlalchemy.py:185-189 | no positional arguments; the keyword arguments have the keys of both maps, the query map's value on every shared key, and the URL component elsewhere |
| `Dialect.IsDisconnect` | radio_duck/sqlalchemy.py:238 | false when there is no error; otherwise true exactly when the marker occurs in the error text |
| `Dialect.GetDefaultIsolationLevel` | radio_duck/sqlalchemy.py:515-517 | the default level is `"SNAPSHOT"` |
| `Dialect.GetIsolationLevel` | radio_duck/sqlalchemy.py:512-513 | the current level is always the default one |
| `Dialect.Perform` | radio_duck/sqlalchemy.py:140-203 | begin, commit, rollback, reset and set isolation level return normally; `create_xid` raises NotSupportedError; savepoints, two-phase calls and `get_table_comment` (lines 382-383) raise NotImplementedError |
| `TypeCompiler.RenderedAs` | radio_duck/sqlalchemy.py:58-68 | exactly the eight overridden types change rendering; each goes to one of FLOAT, DECIMAL, TIMESTAMP, BLOB or VARCHAR, which is not overridden itself |
| `TypeCompiler.RenderedAsIdempotent` | radio_duck/sqlalchemy.py:58-68 | rendering a rendered type changes nothing more |
| `TypeCompiler.RenderedAsPreimages` | radio_duck/sqlalchemy.py:58-68 | for each target, exactly which types render as it (BLOB: CLOB, NCLOB, BINARY, VARBINARY and BLOB) |

## Left out

- The SQL text of the catalog statements in `radio_duck.queries`. That module is not part of this model, so each statement is an opaque name.
- The HTTP transport and the real cursor and connection of `radio_duck.db`. The cursor and connection are modelled classes. How the database answers is a parameter.
- The value of `connect_close_resource_msg`. It lives in `radio_duck.db`, which is not part of this model, so `is_disconnect` takes the marker as a parameter.
- `Dialect.IsDisconnect`: takes the error's string form (`str(e)`), not the exception object.
- `url.translate_connect_args()`. This is the toolkit's code, so `Dialect.Url` stores its result as given.
- `RadioDuckDialectPreparer`'s quoting. It is the toolkit's `IdentifierPreparer`, and its `keyword_list` comes from `radio_duck.reserved_keywords`, which is not part of this model.
- The toolkit's `GenericTypeCompiler` rendering of each type to text. Only the table of redirected visitors is modelled.
- `engine_created`, `on_connect` and `on_connect_url`. They only log.
- `__init__`, which only passes its arguments to the toolkit's base class.
- The `dbapi` classmethod, which returns a module.
- The declared capability flags (`supports_sequences` and the others), `name`, `driver` and `default_paramstyle`. They are static configuration.
- `DbApi.Cursor.FetchAll`: reading a result either raises before any row is handed out or hands out rows without raising. A driver that fails part-way through a result is not modelled.
- `DbApi.Cursor.Close` never fails. The rule that a failing close must not mask an exception already raised is therefore not modelled.
- Row values are limited to null, booleans, integers, strings and lists (`Rows.Value`). Other Python types reach the dialect only as opaque values it passes through.
- `Text.IsSpace` follows Python's `str.isspace` character list. Strings are sequences of Unicode scalar values, with no normalisation.
