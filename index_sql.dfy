/**
 * Column names of an index, recovered from the index's stored `CREATE INDEX`
 * text with `re.search(r"\((.*?)\)", sql)`, `group(1).split(",")` and a
 * `strip()` of every piece.
 */
module IndexSql {
  import opened Wrappers
  import opened Text

  /** The pattern `\((.*?)\)` matches the text from the '(' at `i` to the ')' at
      `j`: `.` matches any character but a line feed, and the lazy `*?` stops at
      the first ')'. */
  ghost predicate MatchAt(s: string, i: int, j: int) {
    && 0 <= i < j < |s|
    && s[i] == '(' && s[j] == ')'
    && forall k :: i < k < j ==> s[k] != ')' && s[k] != '\n'
  }

  /** `re.search` reports the match from `i` to `j`: it matches, and no match
      starts further left. */
  ghost predicate LeftmostMatch(s: string, i: int, j: int) {
    MatchAt(s, i, j) && forall i', j' :: 0 <= i' < i ==> !MatchAt(s, i', j')
  }

  /** The first index at or after `from` that holds ')' or a line feed, or |s|. */
  function StopAt(s: string, from: nat): (k: nat)
    requires from <= |s|
    ensures from <= k <= |s|
    ensures k < |s| ==> s[k] == ')' || s[k] == '\n'
    ensures forall m :: from <= m < k ==> s[m] != ')' && s[m] != '\n'
    decreases |s| - from
  {
    if from == |s| || s[from] == ')' || s[from] == '\n' then from else StopAt(s, from + 1)
  }

  /** `re.search` from position `from`: each start position is tried from left
      to right, and the first one at which the pattern matches wins. The result
      holds the positions of the two parentheses. */
  function Search(s: string, from: nat): (r: Option<(nat, nat)>)
    requires from <= |s|
    ensures r.Some? ==> from <= r.value.0 && MatchAt(s, r.value.0, r.value.1)
    ensures r.Some? ==> forall i, j :: from <= i < r.value.0 ==> !MatchAt(s, i, j)
    ensures r.None? ==> forall i, j :: from <= i ==> !MatchAt(s, i, j)
    decreases |s| - from
  {
    if from == |s| then None
    else if s[from] == '(' then
      var k := StopAt(s, from + 1);
      if k < |s| && s[k] == ')' then Some((from, k)) else Search(s, from + 1)
    else Search(s, from + 1)
  }

  /** `[column.strip() for column in parts]`. */
  function StripAll(parts: seq<string>): (r: seq<string>)
    ensures |r| == |parts|
    ensures forall k :: 0 <= k < |r| ==> r[k] == Strip(parts[k])
  {
    seq(|parts|, k requires 0 <= k < |parts| => Strip(parts[k]))
  }

  /** `m = re.search(r"\((.*?)\)", s)` followed by `m.group(1)`: the text between
      the parentheses of the leftmost match, or `None` when nothing matches. */
  function Group(s: string): (r: Option<string>)
    ensures r.None? <==> forall i, j :: !MatchAt(s, i, j)
    ensures r.Some? ==> exists i, j :: MatchAt(s, i, j) && r.value == s[i + 1..j]
    ensures r.Some? ==> ')' !in r.value && '\n' !in r.value
  {
    match Search(s, 0)
    case None => None
    case Some(p) =>
      var g := s[p.0 + 1..p.1];
      assert forall k :: 0 <= k < |g| ==> g[k] == s[p.0 + 1 + k];
      Some(g)
  }

  /** The `column_names` that get_indexes stores for an index whose SQL text is `sql`. */
  function ColumnNames(sql: string): (r: seq<string>)
    ensures forall k :: 0 <= k < |r| ==> ',' !in r[k]
    ensures forall k :: 0 <= k < |r| ==> Trimmed(r[k])
  {
    match Group(sql)
    case None => []
    case Some(g) =>
      var parts := Split(g, ',');
      var r := StripAll(parts);
      forall k | 0 <= k < |r|
        ensures ',' !in r[k]
        ensures Trimmed(r[k])
      {
        StripKeepsOut(parts[k], ',');
      }
      r
  }

  /** Stripping only removes characters. */
  lemma StripKeepsOut(s: string, c: char)
    requires c !in s
    ensures c !in Strip(s)
  {
    var t := TrimStart(s);
    forall m | 0 <= m < |t| ensures t[m] != c {
      assert t[m] == s[|s| - |t| + m];
    }
    var r := TrimEnd(t);
    forall m | 0 <= m < |r| ensures r[m] != c {
      assert r[m] == t[m];
    }
  }

  /** `column_names` is empty exactly when the SQL text holds no parenthesised group. */
  lemma NoGroupIffNoColumns(sql: string)
    ensures ColumnNames(sql) == [] <==> forall i, j :: !MatchAt(sql, i, j)
  {
    match Search(sql, 0)
    case None =>
    case Some((i, j)) =>
      assert MatchAt(sql, i, j);
  }

  /** With the leftmost match from `i` to `j`, `column_names` is the text between
      the two parentheses, split on commas, each piece stripped. */
  lemma ColumnsOfLeftmostMatch(sql: string, i: nat, j: nat)
    requires MatchAt(sql, i, j)
    requires forall i', j' :: 0 <= i' < i ==> !MatchAt(sql, i', j')
    ensures ColumnNames(sql) == StripAll(Split(sql[i + 1..j], ','))
  {
    GroupOfLeftmostMatch(sql, i, j);
  }

  /** `match.group(1)` is the text between the parentheses of the leftmost
      match, the one `re.search` reports. */
  lemma GroupOfLeftmostMatch(s: string, i: nat, j: nat)
    requires LeftmostMatch(s, i, j)
    ensures Group(s) == Some(s[i + 1..j])
  {
    var r := Search(s, 0);
    assert r.Some? by {
      assert MatchAt(s, i, j);
    }
    var (i0, j0) := r.value;
    assert !(i0 < i);
    assert i0 == i;
    MatchUnique(s, i, j, j0);
  }

  /** A match is determined by its opening parenthesis. */
  lemma MatchUnique(s: string, i: nat, j: nat, j': nat)
    requires MatchAt(s, i, j) && MatchAt(s, i, j')
    ensures j == j'
  {
    assert s[j] == ')' && s[j'] == ')';
  }

  /** The common case: in SQL text without line feeds, the group runs from the
      first '(' to the first ')' after it. */
  lemma ColumnsWithoutLineFeeds(sql: string, i: nat, j: nat)
    requires '\n' !in sql
    requires i < j < |sql| && sql[i] == '(' && sql[j] == ')'
    requires '(' !in sql[..i]
    requires ')' !in sql[i + 1..j]
    ensures ColumnNames(sql) == StripAll(Split(sql[i + 1..j], ','))
  {
    forall k | i < k < j ensures sql[k] != ')' && sql[k] != '\n' {
      assert sql[k] == sql[i + 1..j][k - i - 1];
    }
    forall i', j' | 0 <= i' < i ensures !MatchAt(sql, i', j') {
      assert sql[i'] == sql[..i][i'];
    }
    ColumnsOfLeftmostMatch(sql, i, j);
  }

  /** `ON t(a, b)` gives the column names "a" and "b". */
  lemma TwoColumnExample(sql: string)
    requires sql == "ON t(a, b)"
    ensures ColumnNames(sql) == ["a", "b"]
  {
    TwoColumnText(sql);
    SplitTwo(sql[5..9]);
    StripLetter('a');
    StripSpaceB();
    TwoColumnsAt(sql, 4, 9, "a", " b", "a", "b");
  }

  lemma TwoColumnText(sql: string)
    requires sql == "ON t(a, b)"
    ensures '\n' !in sql && sql[4] == '(' && sql[9] == ')'
    ensures '(' !in sql[..4] && ')' !in sql[5..9]
    ensures sql[5..9] == "a, b"
  {
  }

  /** Text without line feeds whose first group splits into two pieces. */
  lemma TwoColumnsAt(sql: string, i: nat, j: nat, p: string, q: string, x: string, y: string)
    requires '\n' !in sql
    requires i < j < |sql| && sql[i] == '(' && sql[j] == ')'
    requires '(' !in sql[..i]
    requires ')' !in sql[i + 1..j]
    requires Split(sql[i + 1..j], ',') == [p, q]
    requires Strip(p) == x && Strip(q) == y
    ensures ColumnNames(sql) == [x, y]
  {
    ColumnsWithoutLineFeeds(sql, i, j);
    StripPair(p, q);
  }

  lemma SplitTwo(s: string)
    requires s == "a, b"
    ensures Split(s, ',') == ["a", " b"]
  {
    assert s == Join(["a", " b"], ',');
    SplitJoin(["a", " b"], ',');
  }

  /** Stripping two pieces strips each of them. */
  lemma StripPair(p: string, q: string)
    ensures StripAll([p, q]) == [Strip(p), Strip(q)]
  {
    var r := StripAll([p, q]);
    PairOf(r, Strip(p), Strip(q));
  }

  lemma PairOf(r: seq<string>, x: string, y: string)
    requires |r| == 2 && r[0] == x && r[1] == y
    ensures r == [x, y]
  {
  }

  /** A one-letter name strips to itself. */
  lemma StripLetter(c: char)
    requires !IsSpace(c)
    ensures Strip([c]) == [c]
  {
    StripTrimmed([c]);
  }

  lemma StripSpaceB()
    ensures Strip(" b") == "b"
  {
    StripCharacterized(" b", 1, 2);
  }

  /** A functional index keeps its known limitation: the lazy match stops at
      the first ')', so `(lower(a), b)` yields the single name "lower(a". */
  lemma FunctionalIndexExample(sql: string)
    requires sql == "t(lower(a), b)"
    ensures ColumnNames(sql) == ["lower(a"]
  {
    FunctionalIndexText(sql);
    SinglePiece(sql[2..9]);
    ColumnsWithoutLineFeeds(sql, 1, 9);
  }

  lemma FunctionalIndexText(sql: string)
    requires sql == "t(lower(a), b)"
    ensures '\n' !in sql && sql[1] == '(' && sql[9] == ')'
    ensures '(' !in sql[..1] && ')' !in sql[2..9]
    ensures sql[2..9] == "lower(a"
  {
  }

  lemma SinglePiece(s: string)
    requires s == "lower(a"
    ensures StripAll(Split(s, ',')) == [s]
  {
    SplitPiece(s, ',');
    StripTrimmed(s);
    assert StripAll([s]) == [Strip(s)];
  }

  /** An empty group `()` yields one empty name, since `"".split(",")` is `[""]`. */
  lemma EmptyGroupExample(sql: string)
    requires sql == "t()"
    ensures ColumnNames(sql) == [""]
  {
    ColumnsWithoutLineFeeds(sql, 1, 2);
    assert sql[2..2] == "";
    assert StripAll([""]) == [Strip("")];
    StripCharacterized("", 0, 0);
  }

  /** A line feed before the first ')' makes the search give up that '(' and
      move on to the next one. */
  lemma LineFeedExample(sql: string)
    requires sql == "t(a\n) u(b)"
    ensures ColumnNames(sql) == ["b"]
  {
    assert sql[8..9] == "b";
    assert MatchAt(sql, 7, 9);
    LineFeedSkipsGroup(sql);
    SplitPiece("b", ',');
    StripLetter('b');
    assert StripAll(["b"]) == [Strip("b")];
    ColumnsOfLeftmostMatch(sql, 7, 9);
  }

  lemma LineFeedSkipsGroup(sql: string)
    requires sql == "t(a\n) u(b)"
    ensures forall i, j :: 0 <= i < 7 ==> !MatchAt(sql, i, j)
  {
    forall i, j | 0 <= i < 7 ensures !MatchAt(sql, i, j) {
      assert sql[i] == '(' ==> i == 1;
      assert sql[3] == '\n';
    }
  }
}
