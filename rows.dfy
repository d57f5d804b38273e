/**
 * Catalog rows and the plain dictionaries the dialect builds from them:
 * the list comprehensions of the introspection methods.
 */
module Rows {
  import opened Wrappers

  /** A value in a catalog row, or in a record the dialect returns. */
  datatype Value = Null | Bool(b: bool) | Int(i: int) | Str(s: string) | List(items: seq<Value>)

  /** One row of a catalog query's result. */
  type Row = seq<Value>

  /** A Python dict with string keys. */
  type Dict = map<string, Value>

  /** The exceptions the modelled code can raise or let through. */
  datatype Error =
    | IndexError               // `row[k]` on a row with at most k values
    | TypeError                // `re.search` given something that is not a string
    | DriverError(message: string)   // raised by the connection or cursor
    | NotImplemented           // `NotImplementedError()`
    | NotSupported(message: string)  // the driver's `NotSupportedError`

  /** A list of strings as a value. */
  function Strs(names: seq<string>): (v: Value)
    ensures v.List? && |v.items| == |names|
    ensures forall k :: 0 <= k < |names| ==> v.items[k] == Str(names[k])
  {
    List(seq(|names|, k requires 0 <= k < |names| => Str(names[k])))
  }

  /** Total number of values over all rows. */
  function TotalWidth(rows: seq<Row>): nat
    decreases |rows|
  {
    if rows == [] then 0 else |rows[0]| + TotalWidth(rows[1..])
  }

  /** `[col_val for row in rows for col_val in row]`. */
  function Flatten(rows: seq<Row>): (r: seq<Value>)
    ensures |r| == TotalWidth(rows)
    decreases |rows|
  {
    if rows == [] then [] else rows[0] + Flatten(rows[1..])
  }

  /** Flattening distributes over concatenation of row lists: the order of the
      rows is kept. */
  lemma {:induction false} FlattenAppend(a: seq<Row>, b: seq<Row>)
    ensures Flatten(a + b) == Flatten(a) + Flatten(b)
    decreases |a|
  {
    if a == [] {
      assert a + b == b;
    } else {
      assert (a + b)[0] == a[0] && (a + b)[1..] == a[1..] + b;
      FlattenAppend(a[1..], b);
    }
  }

  /** A value is in the flattened list exactly when it is in one of the rows. */
  lemma {:induction false} FlattenMembers(rows: seq<Row>, v: Value)
    ensures v in Flatten(rows) <==> exists i, j :: 0 <= i < |rows| && 0 <= j < |rows[i]| && rows[i][j] == v
    decreases |rows|
  {
    if rows != [] {
      FlattenMembers(rows[1..], v);
      if v in rows[0] {
        var j :| 0 <= j < |rows[0]| && rows[0][j] == v;
        assert rows[0][j] == v;
      }
      if exists i, j :: 0 <= i < |rows[1..]| && 0 <= j < |rows[1..][i]| && rows[1..][i][j] == v {
        var i, j :| 0 <= i < |rows[1..]| && 0 <= j < |rows[1..][i]| && rows[1..][i][j] == v;
        assert rows[i + 1][j] == v;
      }
      if exists i, j :: 0 <= i < |rows| && 0 <= j < |rows[i]| && rows[i][j] == v {
        var i, j :| 0 <= i < |rows| && 0 <= j < |rows[i]| && rows[i][j] == v;
        if i > 0 {
          assert rows[1..][i - 1][j] == v;
        }
      }
    }
  }

  /** For one-column rows, as the name-listing queries return, the result is the
      first value of every row, in row order. */
  lemma {:induction false} FlattenOneColumn(rows: seq<Row>)
    requires forall i :: 0 <= i < |rows| ==> |rows[i]| == 1
    ensures |Flatten(rows)| == |rows|
    ensures forall i :: 0 <= i < |rows| ==> Flatten(rows)[i] == rows[i][0]
    decreases |rows|
  {
    if rows != [] {
      var rest := Flatten(rows[1..]);
      FlattenOneColumn(rows[1..]);
      assert Flatten(rows) == rows[0] + rest;
      assert |rows[0]| == 1;
      forall i | 0 < i < |rows| ensures Flatten(rows)[i] == rows[i][0] {
        assert rows[i] == rows[1..][i - 1];
        assert Flatten(rows)[i] == rest[i - 1];
      }
    }
  }

  /** No key occurs twice. */
  predicate Distinct(keys: seq<string>) {
    forall p, q :: 0 <= p < q < |keys| ==> keys[p] != keys[q]
  }

  /** The dict display `{keys[0]: row[0], keys[1]: row[1], ...}`. */
  function Record(keys: seq<string>, row: Row): (d: Dict)
    requires |keys| <= |row|
    requires Distinct(keys)
    ensures forall k :: k in d <==> k in keys
    ensures forall p :: 0 <= p < |keys| ==> d[keys[p]] == row[p]
    decreases |keys|
  {
    if keys == [] then map[]
    else
      var last := |keys| - 1;
      Record(keys[..last], row)[keys[last] := row[last]]
  }

  /** `[{keys[0]: row[0], ...} for row in rows]`: an `IndexError` as soon as a row
      is too short, else one record per row, in order. */
  function Records(keys: seq<string>, rows: seq<Row>): (r: Result<seq<Dict>, Error>)
    requires Distinct(keys)
    ensures r.Success? <==> forall i :: 0 <= i < |rows| ==> |keys| <= |rows[i]|
    ensures r.Failure? ==> r.error == IndexError
    ensures r.Success? ==> |r.value| == |rows|
    ensures r.Success? ==> forall i :: 0 <= i < |rows| ==> r.value[i] == Record(keys, rows[i])
  {
    if forall i :: 0 <= i < |rows| ==> |keys| <= |rows[i]| then
      Success(seq(|rows|, i requires 0 <= i < |rows| && |keys| <= |rows[i]| => Record(keys, rows[i])))
    else
      Failure(IndexError)
  }

  const ColumnKeys: seq<string> := ["name", "type", "nullable", "default"]
  const ConstraintKeys: seq<string> := ["name", "column_names"]
  const CheckKeys: seq<string> := ["name", "sqltext"]
  const IndexKeys: seq<string> := ["name", "sql", "unique"]

  /** The body of get_pk_constraint: no row gives `[]`, a row gives exactly one
      constraint record. */
  function PrimaryKey(row: Option<Row>): (r: Result<seq<Dict>, Error>)
    ensures row.None? ==> r == Success([])
    ensures row.Some? ==> (r.Success? <==> |row.value| >= 2)
    ensures r.Failure? ==> r.error == IndexError
    ensures r.Success? ==> |r.value| <= 1
    ensures r.Success? && row.Some? ==>
      && |r.value| == 1
      && r.value[0].Keys == {"name", "column_names"}
      && r.value[0]["name"] == row.value[0]
      && r.value[0]["column_names"] == row.value[1]
  {
    match row
    case None => Success([])
    case Some(values) =>
      if |values| < 2 then Failure(IndexError)
      else
        var d := Record(ConstraintKeys, values);
        assert ConstraintKeys[0] == "name" && ConstraintKeys[1] == "column_names";
        Success([d])
  }

  /** The body of get_view_definition: no row gives "", a row gives its first value. */
  function ViewDefinition(row: Option<Row>): (r: Result<Value, Error>)
    ensures row.None? ==> r == Success(Str(""))
    ensures row.Some? ==> (r.Success? <==> |row.value| >= 1)
    ensures row.Some? && r.Success? ==> r.value == row.value[0]
    ensures r.Failure? ==> r.error == IndexError
  {
    match row
    case None => Success(Str(""))
    case Some(values) => if |values| == 0 then Failure(IndexError) else Success(values[0])
  }
}
