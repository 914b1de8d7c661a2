// The query side of core/data_importer.py: the SELECT guard of execute_sql, the statement and
// parameters query_data builds, the per-tile aggregation of list_tile_codes, and the option
// defaults of import_data. The database is a function from statement to answer.

module DataQuery {
  import opened Wrappers
  import opened Strings
  import opened Values
  import opened Sorting
  import opened MapSum
  import opened FieldProfile

  /** A result cell: SQL NULL or a value. */
  datatype Cell = Null | Val(v: Value)

  /** What the cursor reports for a statement: the column names and the rows. */
  datatype Answer = Answer(columns: seq<string>, rows: seq<seq<Cell>>)

  datatype QueryError = NotSelect | DatabaseError

  // ---------------------------------------------------------------------------
  // execute_sql

  /** The guard: the statement, stripped and upper-cased, begins with SELECT. */
  predicate IsSelectQuery(sql: string) {
    StartsWith(Upper(Strip(sql)), "SELECT")
  }

  /** A geom cell holding text or bytes goes through ST_AsText (None: it raises, and str() is used). */
  function ConvertCell(column: string, c: Cell, asText: Value -> Option<string>): Cell {
    if column == "geom" && c.Val? && (c.v.VStr? || c.v.VBytes?) then
      match asText(c.v)
      case Some(wkt) => Val(VStr(wkt))
      case None => Val(VStr(PyStr(c.v)))
    else c
  }

  /** The record of one row, filled column by column (a repeated name keeps the last value). */
  function RecordOf(columns: seq<string>, row: seq<Cell>, asText: Value -> Option<string>): (r: map<string, Cell>)
    requires |row| >= |columns|
    ensures forall k :: k in r <==> k in columns
  {
    if |columns| == 0 then map[]
    else
      var n := |columns| - 1;
      RecordOf(columns[..n], row, asText)[columns[n] := ConvertCell(columns[n], row[n], asText)]
  }

  datatype SqlResult = SqlResult(columns: seq<string>, count: nat, data: seq<map<string, Cell>>)

  /** execute_sql; `run` is the database (None: the statement raises). */
  function ExecuteSqlOf(sql: string, run: string -> Option<Answer>, asText: Value -> Option<string>)
    : Result<SqlResult, QueryError>
  {
    if !IsSelectQuery(sql) then Err(NotSelect)
    else
      match run(sql)
      case None => Err(DatabaseError)
      case Some(a) =>
        if exists i :: 0 <= i < |a.rows| && |a.rows[i]| < |a.columns| then Err(DatabaseError)
        else
          Ok(SqlResult(a.columns, |a.rows|,
                       seq(|a.rows|, i requires 0 <= i < |a.rows| => RecordOf(a.columns, a.rows[i], asText))))
  }

  /**
   * A statement that is not a SELECT is refused whatever the database would answer; an answered
   * SELECT reports one record per row, each keyed by exactly the reported columns.
   */
  lemma ExecuteSqlGuard(sql: string, run: string -> Option<Answer>, run': string -> Option<Answer>,
                        asText: Value -> Option<string>)
    ensures !IsSelectQuery(sql) ==> ExecuteSqlOf(sql, run, asText) == ExecuteSqlOf(sql, run', asText) == Err(NotSelect)
    ensures ExecuteSqlOf(sql, run, asText) == Err(NotSelect) ==> !IsSelectQuery(sql)
    ensures var r := ExecuteSqlOf(sql, run, asText);
      r.Ok? ==> (&& run(sql).Some? && r.value.columns == run(sql).value.columns
                 && r.value.count == |r.value.data| == |run(sql).value.rows|
                 && forall i, k :: 0 <= i < |r.value.data| ==> (k in r.value.data[i] <==> k in r.value.columns))
  {
  }

  /** The record of one row, filled column by column. */
  method BuildRecord(columns: seq<string>, row: seq<Cell>, asText: Value -> Option<string>)
    returns (rec: map<string, Cell>)
    requires |row| >= |columns|
    ensures rec == RecordOf(columns, row, asText)
  {
    rec := map[];
    var i := 0;
    while i < |columns|
      invariant 0 <= i <= |columns|
      invariant rec == RecordOf(columns[..i], row, asText)
    {
      assert columns[..i + 1][..i] == columns[..i];
      rec := rec[columns[i] := ConvertCell(columns[i], row[i], asText)];
      i := i + 1;
    }
    assert columns[..|columns|] == columns;
  }

  /** execute_sql: the guard, the statement, and the rows converted one by one. */
  method ExecuteSql(sql: string, run: string -> Option<Answer>, asText: Value -> Option<string>)
    returns (r: Result<SqlResult, QueryError>)
    ensures r == ExecuteSqlOf(sql, run, asText)
  {
    if !IsSelectQuery(sql) {
      return Err(NotSelect);
    }
    var answer := run(sql);
    if answer.None? {
      return Err(DatabaseError);
    }
    var a := answer.value;
    var results: seq<map<string, Cell>> := [];
    var i := 0;
    while i < |a.rows|
      invariant 0 <= i <= |a.rows|
      invariant |results| == i
      invariant forall j :: 0 <= j < i ==> |a.rows[j]| >= |a.columns| && results[j] == RecordOf(a.columns, a.rows[j], asText)
    {
      if |a.rows[i]| < |a.columns| {
        return Err(DatabaseError);
      }
      var rec := BuildRecord(a.columns, a.rows[i], asText);
      results := results + [rec];
      i := i + 1;
    }
    assert results == seq(|a.rows|, j requires 0 <= j < |a.rows| => RecordOf(a.columns, a.rows[j], asText));
    r := Ok(SqlResult(a.columns, |results|, results));
  }

  lemma {:induction false} StripLeftOfSpaces(w: string, s: string)
    requires forall i :: 0 <= i < |w| ==> IsSpace(w[i])
    ensures StripLeft(w + s) == StripLeft(s)
  {
    if |w| > 0 {
      assert (w + s)[0] == w[0];
      assert (w + s)[1..] == w[1..] + s;
      StripLeftOfSpaces(w[1..], s);
    } else {
      assert w + s == s;
    }
  }

  /** Leading white space does not change the guard's verdict. */
  lemma GuardIgnoresLeadingSpace(w: string, sql: string)
    requires forall i :: 0 <= i < |w| ==> IsSpace(w[i])
    ensures IsSelectQuery(w + sql) <==> IsSelectQuery(sql)
  {
    StripLeftOfSpaces(w, sql);
  }

  lemma LowerCharSpace(c: char)
    ensures IsSpace(LowerChar(c)) <==> IsSpace(c)
  {
  }

  /** Lower case keeps the first character's whiteness and commutes with dropping it. */
  lemma LowerHead(s: string)
    requires |s| > 0
    ensures IsSpace(Lower(s)[0]) <==> IsSpace(s[0])
    ensures Lower(s)[1..] == Lower(s[1..])
  {
    LowerCharSpace(s[0]);
  }

  /** Lower case keeps the last character's whiteness and commutes with dropping it. */
  lemma LowerLast(s: string)
    requires |s| > 0
    ensures IsSpace(Lower(s)[|s| - 1]) <==> IsSpace(s[|s| - 1])
    ensures Lower(s)[..|s| - 1] == Lower(s[..|s| - 1])
  {
    LowerCharSpace(s[|s| - 1]);
  }

  lemma {:induction false} StripLeftLower(s: string)
    ensures StripLeft(Lower(s)) == Lower(StripLeft(s))
  {
    if |s| > 0 {
      LowerHead(s);
      if IsSpace(s[0]) {
        StripLeftLower(s[1..]);
      }
    }
  }

  lemma {:induction false} StripRightLower(s: string)
    ensures StripRight(Lower(s)) == Lower(StripRight(s))
  {
    if |s| > 0 {
      LowerLast(s);
      if IsSpace(s[|s| - 1]) {
        StripRightLower(s[..|s| - 1]);
      }
    }
  }

  lemma UpperOfLower(t: string)
    ensures Upper(Lower(t)) == Upper(t)
  {
    forall i | 0 <= i < |t| ensures UpperChar(LowerChar(t[i])) == UpperChar(t[i]) {
    }
  }

  /** The guard does not depend on letter case. */
  lemma GuardIgnoresCase(sql: string)
    ensures IsSelectQuery(Lower(sql)) <==> IsSelectQuery(sql)
  {
    StripLeftLower(sql);
    StripRightLower(StripLeft(sql));
    assert Strip(Lower(sql)) == Lower(Strip(sql));
    UpperOfLower(Strip(sql));
  }

  // ---------------------------------------------------------------------------
  // query_data

  /** The spatial_filter dictionary: its "bbox" and "geometry" entries. */
  datatype SpatialFilter = SpatialFilter(bbox: Option<seq<Value>>, geometry: Option<Value>)

  /** The parameter marker of psycopg2. */
  const Marker: string := "%s"
  const Comma: string := ", "
  const EnvelopeOpen: string := " AND geom && ST_MakeEnvelope("
  const EnvelopeClose: string := ", 4326)"
  const IntersectsOpen: string := " AND ST_Intersects(geom, ST_GeomFromText("
  const IntersectsClose: string := ", 4326))"
  const SelectFrom: string := "SELECT * FROM "
  const WhereTrue: string := " WHERE 1=1"
  const And: string := " AND "
  const Equals: string := " = "
  const Limit: string := " LIMIT "

  const EnvelopeClause: string :=
    EnvelopeOpen + Marker + Comma + Marker + Comma + Marker + Comma + Marker + EnvelopeClose
  const IntersectsClause: string := IntersectsOpen + Marker + IntersectsClose
  const LimitClause: string := Limit + Marker

  function QueryHead(table: string): string {
    SelectFrom + table + WhereTrue
  }

  /** The spatial clause and its parameters: the bounding box wins over the geometry. */
  function SpatialPart(f: SpatialFilter): (string, seq<Value>) {
    if f.bbox.Some? then (EnvelopeClause, f.bbox.value)
    else if f.geometry.Some? then (IntersectsClause, [f.geometry.value])
    else ("", [])
  }

  function AttributeClause(key: string): string {
    And + key + Equals + Marker
  }

  /** The attribute clauses, one per filter entry in dictionary order. */
  function AttributeSql(attrs: seq<(string, Value)>): string {
    if |attrs| == 0 then ""
    else AttributeSql(attrs[..|attrs| - 1]) + AttributeClause(attrs[|attrs| - 1].0)
  }

  function AttributeParams(attrs: seq<(string, Value)>): (r: seq<Value>)
    ensures |r| == |attrs| && forall i :: 0 <= i < |attrs| ==> r[i] == attrs[i].1
  {
    seq(|attrs|, i requires 0 <= i < |attrs| => attrs[i].1)
  }

  function QuerySql(table: string, f: SpatialFilter, attrs: seq<(string, Value)>): string {
    QueryHead(table) + SpatialPart(f).0 + AttributeSql(attrs) + LimitClause
  }

  function QueryParams(f: SpatialFilter, attrs: seq<(string, Value)>, limit: int): seq<Value> {
    SpatialPart(f).1 + AttributeParams(attrs) + [VInt(limit)]
  }

  lemma AttributeSqlNext(attrs: seq<(string, Value)>, i: nat)
    requires i < |attrs|
    ensures AttributeSql(attrs[..i + 1]) == AttributeSql(attrs[..i]) + AttributeClause(attrs[i].0)
  {
    assert attrs[..i + 1][..i] == attrs[..i];
  }

  /** The attribute-filter loop of query_data: one clause and one parameter per entry. */
  method AppendAttributes(sql: string, params: seq<Value>, attrs: seq<(string, Value)>)
    returns (sql': string, params': seq<Value>)
    ensures sql' == sql + AttributeSql(attrs)
    ensures params' == params + AttributeParams(attrs)
  {
    sql', params' := sql, params;
    var i := 0;
    while i < |attrs|
      invariant 0 <= i <= |attrs|
      invariant sql' == sql + AttributeSql(attrs[..i])
      invariant params' == params + AttributeParams(attrs[..i])
    {
      AttributeSqlNext(attrs, i);
      assert AttributeParams(attrs[..i + 1]) == AttributeParams(attrs[..i]) + [attrs[i].1];
      sql' := sql' + AttributeClause(attrs[i].0);
      params' := params' + [attrs[i].1];
      i := i + 1;
    }
    assert attrs[..|attrs|] == attrs;
  }

  /** The statement and the parameter list of query_data, extended clause by clause. */
  method BuildQuery(table: string, f: SpatialFilter, attrs: seq<(string, Value)>, limit: int)
    returns (sql: string, params: seq<Value>)
    ensures sql == QuerySql(table, f, attrs)
    ensures params == QueryParams(f, attrs, limit)
  {
    sql := QueryHead(table);
    params := [];
    if f.bbox.Some? {
      sql := sql + EnvelopeClause;
      params := params + f.bbox.value;
    } else if f.geometry.Some? {
      sql := sql + IntersectsClause;
      params := params + [f.geometry.value];
    }
    assert sql == QueryHead(table) + SpatialPart(f).0 && params == SpatialPart(f).1;
    sql, params := AppendAttributes(sql, params, attrs);
    sql := sql + LimitClause;
    params := params + [VInt(limit)];
  }

  /**
   * The number of parameter markers in a statement: its '%' characters. In the statements built
   * here every '%' begins a "%s" when no name holds one.
   */
  function Markers(s: string): nat {
    if |s| == 0 then 0 else Markers(s[..|s| - 1]) + (if s[|s| - 1] == '%' then 1 else 0)
  }

  /** The markers of a concatenation are those of its parts. */
  lemma {:induction false} MarkersAppend(a: string, b: string)
    ensures Markers(a + b) == Markers(a) + Markers(b)
  {
    if |b| == 0 {
      assert a + b == a;
    } else {
      var b' := b[..|b| - 1];
      assert (a + b)[..|a + b| - 1] == a + b';
      MarkersAppend(a, b');
    }
  }

  lemma {:induction false} NoPercentNoMarkers(s: string)
    requires '%' !in s
    ensures Markers(s) == 0
  {
    if |s| > 0 {
      assert s[|s| - 1] in s;
      var p := s[..|s| - 1];
      assert '%' !in p by {
        forall c | c in p ensures c != '%' {
          var i :| 0 <= i < |p| && p[i] == c;
          assert s[i] == c;
        }
      }
      NoPercentNoMarkers(p);
    }
  }

  lemma MarkerMarkers() ensures Markers(Marker) == 1 {
    assert Marker[..1] == "%";
    assert "%"[..0] == "";
  }
  lemma CommaMarkers() ensures Markers(Comma) == 0 { NoPercentNoMarkers(Comma); }
  lemma EnvelopeOpenMarkers() ensures Markers(EnvelopeOpen) == 0 { NoPercentNoMarkers(EnvelopeOpen); }
  lemma EnvelopeCloseMarkers() ensures Markers(EnvelopeClose) == 0 { NoPercentNoMarkers(EnvelopeClose); }
  lemma IntersectsOpenMarkers() ensures Markers(IntersectsOpen) == 0 { NoPercentNoMarkers(IntersectsOpen); }
  lemma IntersectsCloseMarkers() ensures Markers(IntersectsClose) == 0 { NoPercentNoMarkers(IntersectsClose); }
  lemma SelectFromMarkers() ensures Markers(SelectFrom) == 0 { NoPercentNoMarkers(SelectFrom); }
  lemma WhereTrueMarkers() ensures Markers(WhereTrue) == 0 { NoPercentNoMarkers(WhereTrue); }
  lemma AndMarkers() ensures Markers(And) == 0 { NoPercentNoMarkers(And); }
  lemma EqualsMarkers() ensures Markers(Equals) == 0 { NoPercentNoMarkers(Equals); }
  lemma LimitMarkers() ensures Markers(Limit) == 0 { NoPercentNoMarkers(Limit); }

  /** A marker and a separator, or a marker closing the clause, add one marker. */
  lemma MarkerThen(prefix: string, sep: string)
    requires Markers(sep) == 0
    ensures Markers(prefix + Marker + sep) == Markers(prefix) + 1
  {
    MarkerMarkers();
    MarkersAppend(prefix, Marker);
    MarkersAppend(prefix + Marker, sep);
  }

  /** The envelope has four markers, the intersection test one, the limit one. */
  lemma ClauseMarkers()
    ensures Markers(EnvelopeClause) == 4
    ensures Markers(IntersectsClause) == 1
    ensures Markers(LimitClause) == 1
  {
    CommaMarkers();
    EnvelopeOpenMarkers();
    EnvelopeCloseMarkers();
    IntersectsOpenMarkers();
    IntersectsCloseMarkers();
    LimitMarkers();
    MarkerThen(EnvelopeOpen, Comma);
    MarkerThen(EnvelopeOpen + Marker + Comma, Comma);
    MarkerThen(EnvelopeOpen + Marker + Comma + Marker + Comma, Comma);
    MarkerThen(EnvelopeOpen + Marker + Comma + Marker + Comma + Marker + Comma, EnvelopeClose);
    MarkerThen(IntersectsOpen, IntersectsClose);
    MarkerThen(Limit, "");
    assert Limit + Marker + "" == LimitClause;
  }

  /** No filter key holds a '%'. */
  predicate PlainKeys(attrs: seq<(string, Value)>) {
    forall i :: 0 <= i < |attrs| ==> '%' !in attrs[i].0
  }

  lemma AttributeClauseMarkers(key: string)
    requires '%' !in key
    ensures Markers(AttributeClause(key)) == 1
  {
    NoPercentNoMarkers(key);
    AndMarkers();
    EqualsMarkers();
    MarkersAppend(And, key);
    MarkersAppend(And + key, Equals);
    NoPercentNoMarkers("");
    MarkerThen(And + key + Equals, "");
    assert And + key + Equals + Marker + "" == AttributeClause(key);
  }

  lemma {:induction false} AttributeSqlMarkers(attrs: seq<(string, Value)>)
    requires PlainKeys(attrs)
    ensures Markers(AttributeSql(attrs)) == |attrs|
  {
    if |attrs| > 0 {
      var p := attrs[..|attrs| - 1];
      assert PlainKeys(p) by {
        assert forall i :: 0 <= i < |p| ==> p[i] == attrs[i];
      }
      AttributeSqlMarkers(p);
      AttributeClauseMarkers(attrs[|attrs| - 1].0);
      MarkersAppend(AttributeSql(p), AttributeClause(attrs[|attrs| - 1].0));
    }
  }

  /**
   * With no '%' in the table name or a filter key, the statement has one marker per parameter,
   * except that the envelope always has four markers whatever the length of the bbox.
   */
  lemma QueryMarkers(table: string, f: SpatialFilter, attrs: seq<(string, Value)>, limit: int)
    requires '%' !in table && PlainKeys(attrs)
    ensures var params := QueryParams(f, attrs, limit);
      && Markers(QuerySql(table, f, attrs)) + (if f.bbox.Some? then |f.bbox.value| else 0)
         == |params| + (if f.bbox.Some? then 4 else 0)
      && (f.bbox.None? || |f.bbox.value| == 4 ==> Markers(QuerySql(table, f, attrs)) == |params|)
  {
    HeadMarkers(table);
    SpatialMarkers(f);
    ClauseMarkers();
    AttributeSqlMarkers(attrs);
    var head, spatial, attrSql := QueryHead(table), SpatialPart(f).0, AttributeSql(attrs);
    MarkersAppend(head, spatial);
    MarkersAppend(head + spatial, attrSql);
    MarkersAppend(head + spatial + attrSql, LimitClause);
  }

  lemma HeadMarkers(table: string)
    requires '%' !in table
    ensures Markers(QueryHead(table)) == 0
  {
    NoPercentNoMarkers(table);
    SelectFromMarkers();
    WhereTrueMarkers();
    MarkersAppend(SelectFrom, table);
    MarkersAppend(SelectFrom + table, WhereTrue);
  }

  lemma SpatialMarkers(f: SpatialFilter)
    ensures Markers(SpatialPart(f).0) == (if f.bbox.Some? then 4 else if f.geometry.Some? then 1 else 0)
    ensures |SpatialPart(f).1| == (if f.bbox.Some? then |f.bbox.value| else if f.geometry.Some? then 1 else 0)
  {
    ClauseMarkers();
    NoPercentNoMarkers("");
  }

  /** The statement's frame and the order of the parameters, with the limit last. */
  lemma QueryShape(table: string, f: SpatialFilter, attrs: seq<(string, Value)>, limit: int)
    ensures var sql := QuerySql(table, f, attrs);
      var params := QueryParams(f, attrs, limit);
      && StartsWith(sql, QueryHead(table))
      && EndsWith(sql, LimitClause)
      && params[|params| - 1] == VInt(limit)
      && (f.bbox.Some? ==> params == f.bbox.value + AttributeParams(attrs) + [VInt(limit)])
      && (f.bbox.None? && f.geometry.Some? ==> params == [f.geometry.value] + AttributeParams(attrs) + [VInt(limit)])
      && (f.bbox.None? && f.geometry.None? ==> params == AttributeParams(attrs) + [VInt(limit)])
  {
    var sql := QuerySql(table, f, attrs);
    var rest := SpatialPart(f).0 + AttributeSql(attrs) + LimitClause;
    assert sql == QueryHead(table) + rest;
    assert sql[..|QueryHead(table)|] == QueryHead(table);
    assert sql[|sql| - |LimitClause|..] == LimitClause;
  }

  /** The values psycopg2 treats as false. */
  predicate Truthy(c: Cell) {
    match c
    case Null => false
    case Val(v) =>
      match v
      case VInt(i) => i != 0
      case VBool(b) => b
      case VFloat(x, _) => x != 0.0
      case VStr(s) => s != ""
      case VBytes(d, _) => d != []
      case VOther(_) => true
  }

  /** dict(zip(columns, row)): the shorter of the two decides. */
  function ZipRecord(columns: seq<string>, row: seq<Cell>): (r: map<string, Cell>)
    ensures forall k :: k in r <==> exists i :: 0 <= i < |columns| && i < |row| && columns[i] == k
  {
    if |columns| == 0 || |row| == 0 then map[]
    else
      var n := if |columns| < |row| then |columns| else |row|;
      var r := ZipRecord(columns[..n - 1], row[..n - 1]);
      assert forall i :: 0 <= i < n - 1 ==> columns[..n - 1][i] == columns[i];
      r[columns[n - 1] := row[n - 1]]
  }

  /**
   * The geometry of a record as query_data renders it: ST_IsEmpty and ST_AsText (None: they
   * raise, and str() is kept); an empty geometry gets the marker suffix.
   */
  function QueryRecord(columns: seq<string>, row: seq<Cell>, geomText: Value -> Option<(bool, string)>)
    : (r: map<string, Cell>)
  {
    var rec := ZipRecord(columns, row);
    if "geom" in rec && Truthy(rec["geom"]) then
      var g := rec["geom"].v;
      match geomText(g)
      case Some((isEmpty, wkt)) => rec["geom" := Val(VStr(if isEmpty then wkt + " (空几何)" else wkt))]
      case None => rec["geom" := Val(VStr(PyStr(g)))]
    else rec
  }

  datatype QueryResult = QueryResult(count: nat, limit: int, data: seq<map<string, Cell>>)

  /** query_data: `run` answers a statement with its parameters (None: it raises). */
  function QueryDataOf(table: string, f: SpatialFilter, attrs: seq<(string, Value)>, limit: int,
                       run: (string, seq<Value>) -> Option<Answer>,
                       geomText: Value -> Option<(bool, string)>): Result<QueryResult, QueryError>
  {
    match run(QuerySql(table, f, attrs), QueryParams(f, attrs, limit))
    case None => Err(DatabaseError)
    case Some(a) =>
      var data := Records(a.columns, a.rows, geomText);
      Ok(QueryResult(|data|, limit, data))
  }

  /** One record per row, in row order. */
  function Records(columns: seq<string>, rows: seq<seq<Cell>>, geomText: Value -> Option<(bool, string)>)
    : (r: seq<map<string, Cell>>)
    ensures |r| == |rows|
  {
    if |rows| == 0 then []
    else Records(columns, rows[..|rows| - 1], geomText) + [QueryRecord(columns, rows[|rows| - 1], geomText)]
  }

  /** query_data: the statement is built, run, and the rows converted one by one. */
  method QueryData(table: string, f: SpatialFilter, attrs: seq<(string, Value)>, limit: int,
                   run: (string, seq<Value>) -> Option<Answer>,
                   geomText: Value -> Option<(bool, string)>) returns (r: Result<QueryResult, QueryError>)
    ensures r == QueryDataOf(table, f, attrs, limit, run, geomText)
  {
    var sql, params := BuildQuery(table, f, attrs, limit);
    var answer := run(sql, params);
    if answer.None? {
      return Err(DatabaseError);
    }
    var rows := answer.value.rows;
    var results: seq<map<string, Cell>> := [];
    var i := 0;
    while i < |rows|
      invariant 0 <= i <= |rows|
      invariant results == Records(answer.value.columns, rows[..i], geomText)
    {
      assert rows[..i + 1][..i] == rows[..i];
      results := results + [QueryRecord(answer.value.columns, rows[i], geomText)];
      i := i + 1;
    }
    assert rows[..|rows|] == rows;
    r := Ok(QueryResult(|results|, limit, results));
  }

  /** count is the number of records, one per row returned, and limit echoes the argument. */
  lemma QueryResultCounts(table: string, f: SpatialFilter, attrs: seq<(string, Value)>, limit: int,
                          run: (string, seq<Value>) -> Option<Answer>, geomText: Value -> Option<(bool, string)>)
    ensures var r := QueryDataOf(table, f, attrs, limit, run, geomText);
      var answer := run(QuerySql(table, f, attrs), QueryParams(f, attrs, limit));
      && (r.Ok? <==> answer.Some?)
      && (r.Ok? ==> r.value.count == |r.value.data| == |answer.value.rows| && r.value.limit == limit)
  {
  }

  /** A record keeps the zipped columns; a present, truthy geom becomes text. */
  lemma QueryRecordFacts(columns: seq<string>, row: seq<Cell>, geomText: Value -> Option<(bool, string)>)
    ensures var rec := ZipRecord(columns, row);
      var r := QueryRecord(columns, row, geomText);
      && r.Keys == rec.Keys
      && (forall k :: k in rec && k != "geom" ==> r[k] == rec[k])
      && ("geom" in rec && Truthy(rec["geom"]) ==> r["geom"].Val? && r["geom"].v.VStr?)
      && ("geom" in rec && !Truthy(rec["geom"]) ==> r["geom"] == rec["geom"])
  {
  }

  // ---------------------------------------------------------------------------
  // list_tile_codes

  /** One row of a table's grouped count: the table, a tile code, its number of rows. */
  type Observation = (string, string, nat)

  /** The grouped counts of one table, or nothing when its query raises. */
  function TableRows(t: string, counts: string -> Option<seq<(string, nat)>>): (r: seq<Observation>)
    ensures forall j :: 0 <= j < |r| ==> r[j].0 == t
  {
    match counts(t)
    case None => []
    case Some(rows) => RowsOfTable(t, rows)
  }

  /** The grouped rows of table t, each tagged with the table. */
  function RowsOfTable(t: string, rows: seq<(string, nat)>): (r: seq<Observation>)
    ensures |r| == |rows|
    ensures forall j :: 0 <= j < |r| ==> r[j] == (t, rows[j].0, rows[j].1)
  {
    seq(|rows|, j requires 0 <= j < |rows| => (t, rows[j].0, rows[j].1))
  }

  /** The rows of every table with a tile_code column, table by table. */
  function Observations(tables: seq<string>, counts: string -> Option<seq<(string, nat)>>): seq<Observation> {
    if |tables| == 0 then []
    else Observations(tables[..|tables| - 1], counts) + TableRows(tables[|tables| - 1], counts)
  }

  /** The set of tile codes (kept in first-seen order) and tile_code_stats. */
  datatype Gathered = Gathered(codes: seq<string>, stats: map<string, map<string, nat>>)

  function StatsOf(stats: map<string, map<string, nat>>, code: string): map<string, nat> {
    if code in stats then stats[code] else map[]
  }

  function GatherStep(g: Gathered, o: Observation): Gathered {
    Gathered(AddUnique(g.codes, o.1), g.stats[o.1 := StatsOf(g.stats, o.1)[o.0 := o.2]])
  }

  function Gather(obs: seq<Observation>): Gathered {
    if |obs| == 0 then Gathered([], map[])
    else GatherStep(Gather(obs[..|obs| - 1]), obs[|obs| - 1])
  }

  datatype TileCodeEntry = TileCodeEntry(tileCode: string, totalRecords: nat, tables: map<string, nat>)

  /** The result; `noTables` marks the early answer, with its message, when no table has a tile_code column. */
  datatype TileCodeList = TileCodeList(tileCodes: seq<TileCodeEntry>, total: nat, noTables: bool)

  ghost function Entry(stats: map<string, map<string, nat>>, code: string): TileCodeEntry {
    TileCodeEntry(code, ValuesSum(StatsOf(stats, code)), StatsOf(stats, code))
  }

  ghost function ListTileCodesOf(tables: seq<string>, counts: string -> Option<seq<(string, nat)>>): TileCodeList {
    if |tables| == 0 then TileCodeList([], 0, true)
    else
      var g := Gather(Observations(tables, counts));
      var sorted := SortStrings(g.codes);
      var entries := seq(|sorted|, i requires 0 <= i < |sorted| => Entry(g.stats, sorted[i]));
      TileCodeList(entries, |entries|, false)
  }

  lemma GatherAppend(obs: seq<Observation>, more: seq<Observation>, j: nat)
    requires j < |more|
    ensures Gather(obs + more[..j + 1]) == GatherStep(Gather(obs + more[..j]), more[j])
  {
    assert (obs + more[..j + 1])[..|obs + more[..j + 1]| - 1] == obs + more[..j];
  }

  lemma ObservationsNext(tables: seq<string>, i: nat, counts: string -> Option<seq<(string, nat)>>)
    requires i < |tables|
    ensures Observations(tables[..i + 1], counts) == Observations(tables[..i], counts) + TableRows(tables[i], counts)
  {
    assert tables[..i + 1][..i] == tables[..i];
  }

  /** One grouped row: its code joins the set, and its count is filed under the code and the table. */
  method GatherRow(t: string, code: string, count: nat, codes: seq<string>, stats: map<string, map<string, nat>>)
    returns (codes': seq<string>, stats': map<string, map<string, nat>>)
    ensures Gathered(codes', stats') == GatherStep(Gathered(codes, stats), (t, code, count))
  {
    codes' := codes;
    if code !in codes' {
      codes' := codes' + [code];
    }
    var forCode := if code in stats then stats[code] else map[];
    stats' := stats[code := forCode[t := count]];
  }

  /** The grouped rows of one table, folded one by one into the codes and the statistics. */
  method GatherRows(t: string, rows: seq<(string, nat)>, ghost before: seq<Observation>,
                    codes: seq<string>, stats: map<string, map<string, nat>>)
    returns (codes': seq<string>, stats': map<string, map<string, nat>>)
    requires Gathered(codes, stats) == Gather(before)
    ensures Gathered(codes', stats') == Gather(before + RowsOfTable(t, rows))
  {
    codes', stats' := codes, stats;
    ghost var more := RowsOfTable(t, rows);
    assert before + more[..0] == before;
    var j := 0;
    while j < |rows|
      invariant 0 <= j <= |rows|
      invariant Gathered(codes', stats') == Gather(before + more[..j])
    {
      GatherAppend(before, more, j);
      var (code, count) := rows[j];
      codes', stats' := GatherRow(t, code, count, codes', stats');
      j := j + 1;
    }
    assert more[..|rows|] == more;
  }

  /** The grouped rows of one table folded into the codes and the statistics; a failed query adds nothing. */
  method GatherTable(t: string, counts: string -> Option<seq<(string, nat)>>, ghost before: seq<Observation>,
                     codes: seq<string>, stats: map<string, map<string, nat>>)
    returns (codes': seq<string>, stats': map<string, map<string, nat>>)
    requires Gathered(codes, stats) == Gather(before)
    ensures Gathered(codes', stats') == Gather(before + TableRows(t, counts))
  {
    var answer := counts(t);
    if answer.None? {
      assert before + TableRows(t, counts) == before;
      return codes, stats;
    }
    codes', stats' := GatherRows(t, answer.value, before, codes, stats);
  }

  /** The grouped rows of every table folded, table by table, into the codes and the statistics. */
  method GatherTables(tables: seq<string>, counts: string -> Option<seq<(string, nat)>>)
    returns (codes: seq<string>, stats: map<string, map<string, nat>>)
    ensures Gathered(codes, stats) == Gather(Observations(tables, counts))
  {
    codes, stats := [], map[];
    var i := 0;
    while i < |tables|
      invariant 0 <= i <= |tables|
      invariant Gathered(codes, stats) == Gather(Observations(tables[..i], counts))
    {
      ObservationsNext(tables, i, counts);
      codes, stats := GatherTable(tables[i], counts, Observations(tables[..i], counts), codes, stats);
      i := i + 1;
    }
    assert tables[..|tables|] == tables;
  }

  /** One entry per sorted code: its total over the tables and the per-table counts. */
  method BuildEntries(stats: map<string, map<string, nat>>, sorted: seq<string>) returns (entries: seq<TileCodeEntry>)
    ensures |entries| == |sorted|
    ensures forall j :: 0 <= j < |sorted| ==> entries[j] == Entry(stats, sorted[j])
  {
    entries := [];
    var k := 0;
    while k < |sorted|
      invariant 0 <= k <= |sorted|
      invariant |entries| == k
      invariant forall j :: 0 <= j < k ==> entries[j] == Entry(stats, sorted[j])
    {
      var forCode := if sorted[k] in stats then stats[sorted[k]] else map[];
      var total := SumValues(forCode);
      entries := entries + [TileCodeEntry(sorted[k], total, forCode)];
      k := k + 1;
    }
  }

  /** list_tile_codes over the tables that have a tile_code column, in name order. */
  method ListTileCodes(tables: seq<string>, counts: string -> Option<seq<(string, nat)>>) returns (r: TileCodeList)
    ensures r == ListTileCodesOf(tables, counts)
  {
    if |tables| == 0 {
      return TileCodeList([], 0, true);
    }
    var codes, stats := GatherTables(tables, counts);
    var sorted := SortStrings(codes);
    var entries := BuildEntries(stats, sorted);
    assert entries == seq(|sorted|, i requires 0 <= i < |sorted| => Entry(stats, sorted[i]));
    r := TileCodeList(entries, |entries|, false);
  }

  /** Table t reported tile code `code` with n rows. */
  ghost predicate Reported(obs: seq<Observation>, t: string, code: string, n: nat) {
    exists i :: 0 <= i < |obs| && obs[i] == (t, code, n)
  }

  /** Table t reported tile code `code`. */
  ghost predicate ReportedBy(obs: seq<Observation>, t: string, code: string) {
    exists i :: 0 <= i < |obs| && obs[i].0 == t && obs[i].1 == code
  }

  /** Some table reported tile code `code`. */
  ghost predicate Observed(obs: seq<Observation>, code: string) {
    exists i :: 0 <= i < |obs| && obs[i].1 == code
  }

  /** What the gathering keeps: distinct codes, exactly the reported ones, each with the tables that reported it. */
  ghost predicate GatherHolds(obs: seq<Observation>, g: Gathered) {
    && Distinct(g.codes)
    && (forall c :: c in g.codes <==> c in g.stats)
    && (forall c :: c in g.codes <==> Observed(obs, c))
    && (forall c, t :: c in g.stats && t in g.stats[c] ==> Reported(obs, t, c, g.stats[c][t]))
    && (forall c, t :: ReportedBy(obs, t, c) ==> c in g.stats && t in g.stats[c])
  }

  lemma AddUniqueDistinct(u: seq<string>, x: string)
    requires Distinct(u)
    ensures Distinct(AddUnique(u, x))
  {
  }

  lemma ObservedStep(p: seq<Observation>, o: Observation, c: string)
    ensures Observed(p + [o], c) <==> Observed(p, c) || o.1 == c
  {
    var all := p + [o];
    if Observed(all, c) && o.1 != c {
      var i :| 0 <= i < |all| && all[i].1 == c;
      assert all[i] == p[i];
    }
    if Observed(p, c) {
      var i :| 0 <= i < |p| && p[i].1 == c;
      assert all[i] == p[i];
    }
    if o.1 == c {
      assert all[|p|] == o;
    }
  }

  lemma ReportedByStep(p: seq<Observation>, o: Observation, t: string, c: string)
    ensures ReportedBy(p + [o], t, c) <==> ReportedBy(p, t, c) || (o.0 == t && o.1 == c)
  {
    var all := p + [o];
    if ReportedBy(all, t, c) && !(o.0 == t && o.1 == c) {
      var i :| 0 <= i < |all| && all[i].0 == t && all[i].1 == c;
      assert all[i] == p[i];
    }
    if ReportedBy(p, t, c) {
      var i :| 0 <= i < |p| && p[i].0 == t && p[i].1 == c;
      assert all[i] == p[i];
    }
    if o.0 == t && o.1 == c {
      assert all[|p|] == o;
    }
  }

  lemma ReportedStep(p: seq<Observation>, o: Observation, t: string, c: string, n: nat)
    ensures Reported(p, t, c, n) ==> Reported(p + [o], t, c, n)
    ensures o == (t, c, n) ==> Reported(p + [o], t, c, n)
  {
    var all := p + [o];
    if Reported(p, t, c, n) {
      var i :| 0 <= i < |p| && p[i] == (t, c, n);
      assert all[i] == p[i];
    }
    assert all[|p|] == o;
  }

  lemma GatherHoldsStep(p: seq<Observation>, o: Observation)
    requires GatherHolds(p, Gather(p))
    ensures GatherHolds(p + [o], Gather(p + [o]))
  {
    var all := p + [o];
    assert all[..|all| - 1] == p;
    var g := Gather(p);
    var g' := Gather(all);
    assert g' == GatherStep(g, o);
    AddUniqueDistinct(g.codes, o.1);
    forall c ensures c in g'.codes <==> Observed(all, c) {
      ObservedStep(p, o, c);
    }
    forall c, t | c in g'.stats && t in g'.stats[c] ensures Reported(all, t, c, g'.stats[c][t]) {
      ReportedStep(p, o, t, c, g'.stats[c][t]);
    }
    forall c, t | ReportedBy(all, t, c) ensures c in g'.stats && t in g'.stats[c] {
      ReportedByStep(p, o, t, c);
    }
  }

  lemma {:induction false} GatherCorrect(obs: seq<Observation>)
    ensures GatherHolds(obs, Gather(obs))
  {
    if |obs| > 0 {
      var p := obs[..|obs| - 1];
      GatherCorrect(p);
      GatherHoldsStep(p, obs[|obs| - 1]);
      assert p + [obs[|obs| - 1]] == obs;
    }
  }

  /** The i-th listed tile code. */
  function CodeAt(r: TileCodeList, i: nat): string
    requires i < |r.tileCodes|
  {
    r.tileCodes[i].tileCode
  }

  ghost predicate Listed(r: TileCodeList, c: string) {
    exists a :: 0 <= a < |r.tileCodes| && CodeAt(r, a) == c
  }

  /** The listed codes are those of the sorted distinct set of gathered codes. */
  lemma ListedCodes(tables: seq<string>, counts: string -> Option<seq<(string, nat)>>)
    requires |tables| > 0
    ensures var r := ListTileCodesOf(tables, counts);
      var g := Gather(Observations(tables, counts));
      && |r.tileCodes| == |SortStrings(g.codes)|
      && (forall a :: 0 <= a < |r.tileCodes| ==> r.tileCodes[a] == Entry(g.stats, SortStrings(g.codes)[a]))
  {
  }

  /**
   * list_tile_codes lists tile codes once each in ascending order and total is the list length;
   * no tables gives the empty answer.
   */
  lemma ListTileCodesSorted(tables: seq<string>, counts: string -> Option<seq<(string, nat)>>)
    ensures var r := ListTileCodesOf(tables, counts);
      && (|tables| == 0 ==> r == TileCodeList([], 0, true))
      && r.total == |r.tileCodes|
      && (forall a, b :: 0 <= a < b < |r.tileCodes| ==> LexLe(CodeAt(r, a), CodeAt(r, b)) && CodeAt(r, a) != CodeAt(r, b))
  {
    if |tables| > 0 {
      var g := Gather(Observations(tables, counts));
      GatherCorrect(Observations(tables, counts));
      SortStringsSorted(g.codes);
      DistinctPermutation(g.codes, SortStrings(g.codes));
      ListedCodes(tables, counts);
    }
  }

  /** A tile code is listed exactly when some table reported it. */
  lemma ListTileCodesComplete(tables: seq<string>, counts: string -> Option<seq<(string, nat)>>)
    requires |tables| > 0
    ensures var r := ListTileCodesOf(tables, counts);
      forall c :: Listed(r, c) <==> Observed(Observations(tables, counts), c)
  {
    var obs := Observations(tables, counts);
    var g := Gather(obs);
    GatherCorrect(obs);
    var sorted := SortStrings(g.codes);
    SortStringsSorted(g.codes);
    ListedCodes(tables, counts);
    var r := ListTileCodesOf(tables, counts);
    forall c ensures Listed(r, c) <==> Observed(obs, c) {
      assert c in sorted <==> c in multiset(sorted);
      assert c in g.codes <==> c in multiset(g.codes);
      if c in sorted {
        var a :| 0 <= a < |sorted| && sorted[a] == c;
        assert CodeAt(r, a) == c;
      }
    }
  }

  /**
   * Each listed tile carries the count every table reported for it, with total_records the sum
   * of those counts.
   */
  lemma ListTileCodesEntries(tables: seq<string>, counts: string -> Option<seq<(string, nat)>>, a: nat)
    requires a < |ListTileCodesOf(tables, counts).tileCodes|
    ensures var e := ListTileCodesOf(tables, counts).tileCodes[a];
      var obs := Observations(tables, counts);
      && e.totalRecords == ValuesSum(e.tables)
      && (forall t :: t in e.tables ==> Reported(obs, t, e.tileCode, e.tables[t]))
      && (forall t :: ReportedBy(obs, t, e.tileCode) ==> t in e.tables)
  {
    var obs := Observations(tables, counts);
    var g := Gather(obs);
    GatherCorrect(obs);
    ListedCodes(tables, counts);
    var sorted := SortStrings(g.codes);
    SortStringsSorted(g.codes);
    assert sorted[a] in multiset(g.codes);
  }

  // ---------------------------------------------------------------------------
  // import_data

  /** The import options given, None for a missing key. */
  datatype ImportOptions = ImportOptions(
    srid: Option<int>,
    batchSize: Option<int>,
    skipInvalid: Option<bool>,
    createIndexes: Option<bool>)

  datatype ImportSettings = ImportSettings(srid: int, batchSize: int, skipInvalid: bool, createIndexes: bool)

  const DefaultSrid: int := 4326

  datatype ImportError = NoSpec | UnsupportedFormat(format: string)

  /**
   * The checks and defaults of import_data before the import proper: a spec must be given or
   * detected, and the data must be in the "gdb" format. `specSrid` is the spec's default_srid.
   */
  function ImportPlan(specName: Option<string>, detected: Option<string>, options: ImportOptions,
                      specSrid: Option<int>, format: string): Result<ImportSettings, ImportError>
  {
    if (specName.None? || specName.value == "") && (detected.None? || detected.value == "") then Err(NoSpec)
    else if format != "gdb" then Err(UnsupportedFormat(format))
    else
      Ok(ImportSettings(options.srid.GetOr(specSrid.GetOr(DefaultSrid)), options.batchSize.GetOr(1000),
                        options.skipInvalid.GetOr(true), options.createIndexes.GetOr(true)))
  }

  /**
   * Without options the import uses the spec's SRID or 4326, batches of 1000, and skips invalid
   * geometries and creates indexes; a given option always wins.
   */
  lemma ImportDefaults(specName: string, options: ImportOptions, specSrid: Option<int>)
    requires specName != ""
    ensures var r := ImportPlan(Some(specName), None, ImportOptions(None, None, None, None), specSrid, "gdb");
      r == Ok(ImportSettings(if specSrid.Some? then specSrid.value else 4326, 1000, true, true))
    ensures var r := ImportPlan(Some(specName), None, options, specSrid, "gdb");
      && r.Ok?
      && (options.srid.Some? ==> r.value.srid == options.srid.value)
      && (options.batchSize.Some? ==> r.value.batchSize == options.batchSize.value)
      && (options.skipInvalid.Some? ==> r.value.skipInvalid == options.skipInvalid.value)
      && (options.createIndexes.Some? ==> r.value.createIndexes == options.createIndexes.value)
  {
  }

  /** import_data raises without a spec, and for any format but "gdb". */
  lemma ImportRefusals(specName: Option<string>, detected: Option<string>, options: ImportOptions,
                       specSrid: Option<int>, format: string)
    ensures var r := ImportPlan(specName, detected, options, specSrid, format);
      && (r == Err(NoSpec) <==> (specName.None? || specName.value == "") && (detected.None? || detected.value == ""))
      && (r.Ok? ==> format == "gdb")
  {
  }
}
