// Table design of scripts/parse_tile_schema.py (design_table_structure): the ordered column
// list of a layer's table, its CREATE TABLE statement, its index statements and the flat list
// of column constraints.

module TableDesign {
  import opened Wrappers
  import opened Strings
  import opened Identifiers
  import opened TypeInference
  import opened FieldProfile
  import opened LayerProfile

  datatype IndexKind = Gist | Btree

  /** What a column's description says; its text is given by Description. */
  datatype ColumnNote =
    | IdNote | GeomNote(geometryType: string) | TileCodeNote | FieldNote(field: string)
    | CreatedAtNote | UpdatedAtNote | NoNote

  /**
   * One designed column; `originalName` is the source field a data column comes from, and
   * `note` the description its SQL comment carries.
   */
  datatype ColumnDesign = ColumnDesign(
    name: string,
    sqlType: string,
    constraints: seq<string>,
    index: Option<IndexKind>,
    originalName: Option<string>,
    note: ColumnNote)

  datatype Design = Design(
    tableName: string,
    layerName: string,
    geometryType: Option<string>,
    description: string,
    columns: seq<ColumnDesign>,
    createSql: string,
    indexes: seq<string>,
    constraints: seq<string>)

  /** The geometry types with a PostGIS subtype of their own. */
  const KnownGeometryTypes: set<string> :=
    {"Point", "LineString", "Polygon", "MultiPoint", "MultiLineString", "MultiPolygon", "GeometryCollection"}

  /** The PostGIS subtype of a fiona geometry type: its upper-case name when known, otherwise GEOMETRY. */
  function PgGeometryType(g: string): string {
    if g == "Point" then "POINT"
    else if g == "LineString" then "LINESTRING"
    else if g == "Polygon" then "POLYGON"
    else if g == "MultiPoint" then "MULTIPOINT"
    else if g == "MultiLineString" then "MULTILINESTRING"
    else if g == "MultiPolygon" then "MULTIPOLYGON"
    else if g == "GeometryCollection" then "GEOMETRYCOLLECTION"
    else "GEOMETRY"
  }

  /** The seven known geometry types map to their upper-case names, anything else to GEOMETRY. */
  lemma PgGeometryTypeNames(g: string)
    ensures g in KnownGeometryTypes ==> PgGeometryType(g) == Upper(g)
    ensures g !in KnownGeometryTypes ==> PgGeometryType(g) == "GEOMETRY"
  {
    if g == "Point" { assert Upper(g) == "POINT"; }
    else if g == "LineString" { assert Upper(g) == "LINESTRING"; }
    else if g == "Polygon" { assert Upper(g) == "POLYGON"; }
    else if g == "MultiPoint" { assert Upper(g) == "MULTIPOINT"; }
    else if g == "MultiLineString" { assert Upper(g) == "MULTILINESTRING"; }
    else if g == "MultiPolygon" { assert Upper(g) == "MULTIPOLYGON"; }
    else if g == "GeometryCollection" { assert Upper(g) == "GEOMETRYCOLLECTION"; }
  }

  /** A geometry column is designed only for a geometry type that is set and neither "Unknown" nor "None". */
  predicate HasKnownGeometry(geometryType: Option<string>) {
    geometryType.Some? && geometryType.value != "" && geometryType.value != "Unknown" && geometryType.value != "None"
  }

  const IdDescription: string := "主键，自动递增的唯一标识符"

  /** The description of each designed column; only columns of the unified script have none. */
  function Description(n: ColumnNote): string {
    match n
    case IdNote => IdDescription
    case GeomNote(g) => "PostGIS几何对象，类型: " + g
    case TileCodeNote => "图幅代码，1:100万图幅编号（如F49、F50等）"
    case FieldNote(f) => "原始字段: " + f
    case CreatedAtNote => "记录创建时间"
    case UpdatedAtNote => "记录更新时间"
    case NoNote => ""
  }

  lemma DescriptionNonEmpty(n: ColumnNote)
    ensures |Description(n)| > 0 <==> !n.NoNote?
  {
  }

  const IdColumn := ColumnDesign("id", "BIGSERIAL", ["PRIMARY KEY"], None, None, IdNote)
  const TileCodeColumn := ColumnDesign("tile_code", "VARCHAR(10)", ["NOT NULL"], Some(Btree), None, TileCodeNote)
  const CreatedAtColumn := ColumnDesign("created_at", "TIMESTAMP", ["DEFAULT CURRENT_TIMESTAMP"], None, None, CreatedAtNote)
  const UpdatedAtColumn := ColumnDesign("updated_at", "TIMESTAMP", ["DEFAULT CURRENT_TIMESTAMP"], None, None, UpdatedAtNote)

  function GeomColumn(g: string): ColumnDesign {
    ColumnDesign("geom", "GEOMETRY(" + PgGeometryType(g) + ", 4326)", [], Some(Gist), None, GeomNote(g))
  }

  /** The column type as written: a profile whose type inference did not finish renders as "None". */
  function FieldColumnTypeAsWritten(p: Profile): string {
    match p.recommendedType
    case None => "None"
    case Some(t) => t.ToSql()
  }

  /** The column type, falling back to TEXT when the profile recommends none. */
  function FieldColumnType(p: Profile): (r: string)
    ensures p.recommendedType.Some? ==> r == FieldColumnTypeAsWritten(p)
    ensures p.recommendedType.None? ==> r == "TEXT"
  {
    match p.recommendedType
    case None => "TEXT"
    case Some(t) => t.ToSql()
  }

  /** The constraint texts of a profile, in order. */
  function ConstraintTexts(cs: seq<Constraint>): (r: seq<string>)
    ensures |r| == |cs|
    ensures forall i :: 0 <= i < |cs| ==> r[i] == cs[i].ToSql()
  {
    seq(|cs|, i requires 0 <= i < |cs| => cs[i].ToSql())
  }

  /** The data column designed for one profiled field. */
  function FieldColumn(entry: (string, Profile)): ColumnDesign {
    ColumnDesign(DesignColumnName(entry.0), FieldColumnType(entry.1),
                 ConstraintTexts(entry.1.constraints), None, Some(entry.0), FieldNote(entry.0))
  }

  function FieldColumns(fields: seq<(string, Profile)>): (r: seq<ColumnDesign>)
    ensures |r| == |fields|
    ensures forall i :: 0 <= i < |fields| ==> r[i] == FieldColumn(fields[i])
  {
    seq(|fields|, i requires 0 <= i < |fields| => FieldColumn(fields[i]))
  }

  lemma FieldColumnsNext(fields: seq<(string, Profile)>, i: nat)
    requires i < |fields|
    ensures FieldColumns(fields[..i + 1]) == FieldColumns(fields[..i]) + [FieldColumn(fields[i])]
  {
    var a := FieldColumns(fields[..i + 1]);
    var b := FieldColumns(fields[..i]) + [FieldColumn(fields[i])];
    assert |a| == |b|;
    forall j | 0 <= j < |a| ensures a[j] == b[j] {
      assert fields[..i + 1][j] == fields[j];
      if j < i {
        assert fields[..i][j] == fields[j];
      }
    }
  }

  /** The columns in design order. */
  function DesignColumns(info: LayerInfo): seq<ColumnDesign> {
    [IdColumn]
    + (if HasKnownGeometry(info.geometryType) then [GeomColumn(info.geometryType.value)] else [])
    + [TileCodeColumn]
    + FieldColumns(info.fields)
    + [CreatedAtColumn, UpdatedAtColumn]
  }

  /** The default table name: the parse script's table-name cleaner applied to the layer name. */
  function DesignTableName(info: LayerInfo, tableName: Option<string>): string {
    match tableName
    case Some(t) => t
    case None => ParseTableName(info.layerName)
  }

  /** The SQL part of a column definition: name, type and constraints. */
  function ColumnSql(c: ColumnDesign): string {
    "    " + c.name + " " + c.sqlType + (if |c.constraints| > 0 then " " + Join(" ", c.constraints) else "")
  }

  const CommentMark: string := "  -- "

  /** The line comment a column definition carries: its description after "  -- ". */
  function CommentOf(c: ColumnDesign): string {
    if |Description(c.note)| > 0 then CommentMark + Description(c.note) else ""
  }

  /** One column definition line of the CREATE TABLE statement, its comment included. */
  function ColumnDef(c: ColumnDesign): string {
    ColumnSql(c) + CommentOf(c)
  }

  function ColumnDefs(cols: seq<ColumnDesign>): (r: seq<string>)
    ensures |r| == |cols|
    ensures forall i :: 0 <= i < |cols| ==> r[i] == ColumnDef(cols[i])
  {
    seq(|cols|, i requires 0 <= i < |cols| => ColumnDef(cols[i]))
  }

  lemma ColumnDefsNext(cols: seq<ColumnDesign>, k: nat)
    requires k < |cols|
    ensures ColumnDefs(cols[..k + 1]) == ColumnDefs(cols[..k]) + [ColumnDef(cols[k])]
  {
    var a := ColumnDefs(cols[..k + 1]);
    var b := ColumnDefs(cols[..k]) + [ColumnDef(cols[k])];
    assert |a| == |b|;
    forall i | 0 <= i < |a| ensures a[i] == b[i] {
      assert cols[..k + 1][i] == cols[i];
      if i < k {
        assert cols[..k][i] == cols[i];
      }
    }
  }

  /** The CREATE TABLE statement: the definition lines joined by ",\n" between the parentheses. */
  function TableStatement(t: string, defs: seq<string>): string {
    StatementHead(t) + (Join(",\n", defs) + "\n);")
  }

  function StatementHead(t: string): string {
    "CREATE TABLE " + t + " (\n"
  }

  function CreateTableSql(t: string, cols: seq<ColumnDesign>): string {
    TableStatement(t, ColumnDefs(cols))
  }

  /** The table's own description, used in its COMMENT ON TABLE statement. */
  function TableDescription(t: string, layerName: string): string {
    "表 " + t + " 存储图层 " + layerName + " 的数据"
  }

  function TableComment(t: string, description: string): string {
    "COMMENT ON TABLE " + t + " IS '" + description + "';"
  }

  /** The COMMENT ON COLUMN statement of a described column, its quotes doubled. */
  function ColumnComment(t: string, c: ColumnDesign): string {
    "COMMENT ON COLUMN " + t + "." + c.name + " IS '" + ReplaceAll(Description(c.note), "'", "''") + "';"
  }

  /** The columns that carry a description, in column order. */
  function Described(cols: seq<ColumnDesign>): (r: seq<ColumnDesign>)
    ensures |r| <= |cols|
  {
    if |cols| == 0 then []
    else Described(cols[..|cols| - 1]) + (if !cols[|cols| - 1].note.NoNote? then [cols[|cols| - 1]] else [])
  }

  /** The column comments, one per described column, in column order. */
  function ColumnComments(t: string, cols: seq<ColumnDesign>): seq<string> {
    var ds := Described(cols);
    seq(|ds|, i requires 0 <= i < |ds| => ColumnComment(t, ds[i]))
  }

  /** One more column: its comment is appended when it carries a description. */
  lemma ColumnCommentsNext(t: string, cols: seq<ColumnDesign>, k: nat)
    requires k < |cols|
    ensures ColumnComments(t, cols[..k + 1])
      == ColumnComments(t, cols[..k]) + (if !cols[k].note.NoNote? then [ColumnComment(t, cols[k])] else [])
  {
    var p := cols[..k + 1];
    assert p[..k] == cols[..k];
    var before := Described(cols[..k]);
    var after := Described(p);
    assert after == before + (if !cols[k].note.NoNote? then [cols[k]] else []);
    var a := ColumnComments(t, p);
    var b := ColumnComments(t, cols[..k]) + (if !cols[k].note.NoNote? then [ColumnComment(t, cols[k])] else []);
    assert |a| == |b|;
    forall i | 0 <= i < |a| ensures a[i] == b[i] {
      if i < |before| {
        assert after[i] == before[i];
      }
    }
  }

  /** The headings that open the sections after the statement: a blank line, then a comment line. */
  const IndexHeading: string := "\n\n-- 索引\n"
  const TableCommentHeading: string := "\n\n-- 表注释\n"
  const ColumnCommentHeading: string := "\n\n-- 列注释\n"

  /**
   * The whole create_sql text: the CREATE TABLE statement, then the index section, the table
   * comment (always present) and the column comments.
   */
  function FullSql(t: string, description: string, cols: seq<ColumnDesign>): string {
    SqlText(t, ColumnDefs(cols), IndexStatements(t, cols), TableComment(t, description), ColumnComments(t, cols))
  }

  /** create_sql from its rendered parts; a list section is present when it has lines. */
  function SqlText(t: string, defs: seq<string>, indexes: seq<string>, tableComment: string,
                   comments: seq<string>): string {
    TableStatement(t, defs)
    + (if |indexes| > 0 then IndexHeading + Join("\n", indexes) else "")
    + (if |tableComment| > 0 then TableCommentHeading + tableComment else "")
    + (if |comments| > 0 then ColumnCommentHeading + Join("\n", comments) else "")
  }

  /** The index statement for a column that asks for an index. */
  function IndexStatement(t: string, c: ColumnDesign): string
    requires c.index.Some?
  {
    var indexName := t + "_" + c.name + "_idx";
    if c.index.value == Gist then "CREATE INDEX " + indexName + " ON " + t + " USING GIST (" + c.name + ");"
    else "CREATE INDEX " + indexName + " ON " + t + " (" + c.name + ");"
  }

  /** The index statements, one per indexed column, in column order. */
  function IndexStatements(t: string, cols: seq<ColumnDesign>): seq<string> {
    if |cols| == 0 then []
    else
      IndexStatements(t, cols[..|cols| - 1])
      + (if cols[|cols| - 1].index.Some? then [IndexStatement(t, cols[|cols| - 1])] else [])
  }

  /** Every column's constraints, concatenated in column order. */
  function AllConstraints(cols: seq<ColumnDesign>): seq<string> {
    if |cols| == 0 then [] else AllConstraints(cols[..|cols| - 1]) + cols[|cols| - 1].constraints
  }

  function DesignOf(info: LayerInfo, tableName: Option<string>): Design {
    var t := DesignTableName(info, tableName);
    var cols := DesignColumns(info);
    var description := TableDescription(t, info.layerName);
    Design(t, info.layerName, info.geometryType, description, cols, FullSql(t, description, cols),
           IndexStatements(t, cols), AllConstraints(cols))
  }

  /** One data column per profiled field, in field order. */
  method BuildFieldColumns(fields: seq<(string, Profile)>) returns (columns: seq<ColumnDesign>)
    ensures columns == FieldColumns(fields)
  {
    columns := [];
    var i := 0;
    while i < |fields|
      invariant 0 <= i <= |fields|
      invariant columns == FieldColumns(fields[..i])
    {
      FieldColumnsNext(fields, i);
      columns := columns + [FieldColumn(fields[i])];
      i := i + 1;
    }
    assert fields[..|fields|] == fields;
  }

  /** The column pass of design_table_structure: id, geom, tile_code, the fields, the timestamps. */
  method BuildColumns(info: LayerInfo) returns (columns: seq<ColumnDesign>)
    ensures columns == DesignColumns(info)
  {
    columns := [IdColumn];
    if HasKnownGeometry(info.geometryType) {
      columns := columns + [GeomColumn(info.geometryType.value)];
    }
    assert columns == [IdColumn] + (if HasKnownGeometry(info.geometryType) then [GeomColumn(info.geometryType.value)] else []);
    columns := columns + [TileCodeColumn];
    var fieldColumns := BuildFieldColumns(info.fields);
    columns := columns + fieldColumns;
    columns := columns + [CreatedAtColumn, UpdatedAtColumn];
  }

  /** design_table_structure: append the columns, then render the statements column by column. */
  method DesignTableStructure(info: LayerInfo, tableName: Option<string>) returns (d: Design)
    ensures d == DesignOf(info, tableName)
  {
    var t := if tableName.Some? then tableName.value else ParseTableName(info.layerName);
    var description := TableDescription(t, info.layerName);
    var columns := BuildColumns(info);
    var columnDefs, indexSql, constraints := RenderColumns(t, columns);
    var commentSql := TableComment(t, description);
    var columnComments := RenderColumnComments(t, columns);
    var fullSql := AssembleSql(t, columnDefs, indexSql, commentSql, columnComments);
    d := Design(t, info.layerName, info.geometryType, description, columns, fullSql, indexSql, constraints);
  }

  /** The assembly of create_sql: the statement, then each section whose text or lines are not empty. */
  method AssembleSql(t: string, columnDefs: seq<string>, indexSql: seq<string>, commentSql: string,
                     columnComments: seq<string>) returns (fullSql: string)
    ensures fullSql == SqlText(t, columnDefs, indexSql, commentSql, columnComments)
  {
    fullSql := TableStatement(t, columnDefs);
    fullSql := fullSql + (if |indexSql| > 0 then IndexHeading + Join("\n", indexSql) else "");
    fullSql := fullSql + (if |commentSql| > 0 then TableCommentHeading + commentSql else "");
    fullSql := fullSql + (if |columnComments| > 0 then ColumnCommentHeading + Join("\n", columnComments) else "");
  }

  /** The column-comment pass: one COMMENT ON COLUMN per described column, in column order. */
  method RenderColumnComments(t: string, columns: seq<ColumnDesign>) returns (comments: seq<string>)
    ensures comments == ColumnComments(t, columns)
  {
    comments := [];
    var k := 0;
    while k < |columns|
      invariant 0 <= k <= |columns|
      invariant comments == ColumnComments(t, columns[..k])
    {
      ColumnCommentsNext(t, columns, k);
      if !columns[k].note.NoNote? {
        comments := comments + [ColumnComment(t, columns[k])];
      }
      k := k + 1;
    }
    assert columns[..|columns|] == columns;
  }

  /** The per-column passes of design_table_structure: definition lines, index statements, constraints. */
  method RenderColumns(t: string, columns: seq<ColumnDesign>)
    returns (columnDefs: seq<string>, indexSql: seq<string>, constraints: seq<string>)
    ensures columnDefs == ColumnDefs(columns)
    ensures indexSql == IndexStatements(t, columns)
    ensures constraints == AllConstraints(columns)
  {
    columnDefs, indexSql, constraints := [], [], [];
    var k := 0;
    while k < |columns|
      invariant 0 <= k <= |columns|
      invariant columnDefs == ColumnDefs(columns[..k])
      invariant indexSql == IndexStatements(t, columns[..k])
      invariant constraints == AllConstraints(columns[..k])
    {
      ColumnDefsNext(columns, k);
      assert columns[..k + 1][..k] == columns[..k];
      columnDefs := columnDefs + [ColumnDef(columns[k])];
      if columns[k].index.Some? {
        indexSql := indexSql + [IndexStatement(t, columns[k])];
      }
      constraints := constraints + columns[k].constraints;
      k := k + 1;
    }
    assert columns[..|columns|] == columns;
  }

  // ---------------------------------------------------------------------------
  // Properties of the design

  /** The parts of a design: the table name, its columns, and the texts rendered from them. */
  lemma DesignOfParts(info: LayerInfo, tableName: Option<string>)
    ensures var d := DesignOf(info, tableName);
      var t := DesignTableName(info, tableName);
      && d.tableName == t
      && d.columns == DesignColumns(info)
      && d.description == TableDescription(t, info.layerName)
      && d.createSql == FullSql(t, d.description, d.columns)
      && d.indexes == IndexStatements(t, d.columns)
      && d.constraints == AllConstraints(d.columns)
  {
  }

  /** id, then geom when the geometry type is known, then tile_code, the fields in order, created_at, updated_at. */
  lemma DesignLayout(info: LayerInfo)
    ensures var cols := DesignColumns(info);
      var g := if HasKnownGeometry(info.geometryType) then 1 else 0;
      var n := |info.fields|;
      && |cols| == 4 + n + g
      && cols[0] == IdColumn
      && (g == 1 ==>
            cols[1] == GeomColumn(info.geometryType.value) &&
            cols[1].sqlType == "GEOMETRY(" + PgGeometryType(info.geometryType.value) + ", 4326)")
      && cols[1 + g] == TileCodeColumn
      && (forall i :: 0 <= i < n ==> cols[2 + g + i] == FieldColumn(info.fields[i]))
      && cols[2 + g + n] == CreatedAtColumn
      && cols[3 + g + n] == UpdatedAtColumn
  {
    var geom := if HasKnownGeometry(info.geometryType) then [GeomColumn(info.geometryType.value)] else [];
    var fields := FieldColumns(info.fields);
    ConcatLayout(IdColumn, geom, TileCodeColumn, fields, CreatedAtColumn, UpdatedAtColumn);
    var cols := DesignColumns(info);
    assert cols == [IdColumn] + geom + [TileCodeColumn] + fields + [CreatedAtColumn, UpdatedAtColumn];
    var g := |geom|;
    forall i | 0 <= i < |info.fields| ensures cols[2 + g + i] == FieldColumn(info.fields[i]) {
      assert cols[2 + g + i] == fields[i];
    }
  }

  /** The positions of the parts of [a] + geom + [b] + fields + [c, d]. */
  lemma ConcatLayout(a: ColumnDesign, geom: seq<ColumnDesign>, b: ColumnDesign, fields: seq<ColumnDesign>,
                     c: ColumnDesign, d: ColumnDesign)
    ensures var cols := [a] + geom + [b] + fields + [c, d];
      var g := |geom|;
      var n := |fields|;
      && |cols| == 4 + n + g
      && cols[0] == a
      && (g > 0 ==> cols[1] == geom[0])
      && cols[1 + g] == b
      && (forall i :: 0 <= i < n ==> cols[2 + g + i] == fields[i])
      && cols[2 + g + n] == c
      && cols[3 + g + n] == d
  {
  }

  /** No data column takes a system column's name, and every data column keeps its source field. */
  lemma FieldColumnsNamed(info: LayerInfo)
    ensures var cols := DesignColumns(info);
      var g := if HasKnownGeometry(info.geometryType) then 1 else 0;
      forall i :: 0 <= i < |info.fields| ==>
        && cols[2 + g + i].name !in ReservedColumns
        && cols[2 + g + i].originalName == Some(info.fields[i].0)
        && cols[2 + g + i].index.None?
  {
    DesignLayout(info);
  }

  lemma {:induction false} IndexStatementsAppend(t: string, a: seq<ColumnDesign>, b: seq<ColumnDesign>)
    ensures IndexStatements(t, a + b) == IndexStatements(t, a) + IndexStatements(t, b)
    decreases |b|
  {
    if |b| == 0 {
      assert a + b == a;
    } else {
      var b' := b[..|b| - 1];
      assert (a + b)[..|a + b| - 1] == a + b';
      IndexStatementsAppend(t, a, b');
    }
  }

  lemma {:induction false} FieldColumnsUnindexed(fields: seq<(string, Profile)>, t: string)
    ensures IndexStatements(t, FieldColumns(fields)) == []
    decreases |fields|
  {
    if |fields| > 0 {
      var cols := FieldColumns(fields);
      assert cols[..|cols| - 1] == FieldColumns(fields[..|fields| - 1]);
      FieldColumnsUnindexed(fields[..|fields| - 1], t);
    }
  }

  lemma SingleIndexStatement(t: string, c: ColumnDesign)
    ensures IndexStatements(t, [c]) == if c.index.Some? then [IndexStatement(t, c)] else []
  {
    assert [c][..0] == [];
  }

  /** Index statements are emitted for geom (GIST, when designed) and tile_code (BTREE) and nothing else. */
  lemma DesignIndexes(info: LayerInfo, tableName: Option<string>)
    ensures var d := DesignOf(info, tableName);
      var t := d.tableName;
      d.indexes ==
        (if HasKnownGeometry(info.geometryType)
         then [IndexStatement(t, GeomColumn(info.geometryType.value))] else [])
        + [IndexStatement(t, TileCodeColumn)]
  {
    var d := DesignOf(info, tableName);
    DesignOfParts(info, tableName);
    var t := d.tableName;
    var geom := if HasKnownGeometry(info.geometryType) then [GeomColumn(info.geometryType.value)] else [];
    var fieldCols := FieldColumns(info.fields);
    var tail := [CreatedAtColumn, UpdatedAtColumn];
    var a := [IdColumn] + geom;
    var b := a + [TileCodeColumn];
    var c := b + fieldCols;
    assert d.columns == c + tail;
    var gi := if HasKnownGeometry(info.geometryType)
              then [IndexStatement(t, GeomColumn(info.geometryType.value))] else [];
    var ti := [IndexStatement(t, TileCodeColumn)];
    assert IndexStatements(t, a) == gi by {
      IndexStatementsAppend(t, [IdColumn], geom);
      SingleIndexStatement(t, IdColumn);
      if HasKnownGeometry(info.geometryType) {
        SingleIndexStatement(t, GeomColumn(info.geometryType.value));
      } else {
        assert a == [IdColumn];
      }
    }
    assert IndexStatements(t, b) == gi + ti by {
      IndexStatementsAppend(t, a, [TileCodeColumn]);
      SingleIndexStatement(t, TileCodeColumn);
    }
    assert IndexStatements(t, c) == gi + ti by {
      IndexStatementsAppend(t, b, fieldCols);
      FieldColumnsUnindexed(info.fields, t);
    }
    assert IndexStatements(t, tail) == [] by {
      assert tail[..1] == [CreatedAtColumn];
      SingleIndexStatement(t, CreatedAtColumn);
    }
    IndexStatementsAppend(t, c, tail);
  }

  lemma {:induction false} AllConstraintsMembers(cols: seq<ColumnDesign>, s: string)
    ensures s in AllConstraints(cols) <==> exists i :: 0 <= i < |cols| && s in cols[i].constraints
    decreases |cols|
  {
    if |cols| > 0 {
      var init := cols[..|cols| - 1];
      AllConstraintsMembers(init, s);
      if exists i :: 0 <= i < |cols| && s in cols[i].constraints {
        var i :| 0 <= i < |cols| && s in cols[i].constraints;
        if i < |init| {
          assert s in init[i].constraints;
        }
      }
      if s in AllConstraints(init) {
        var i :| 0 <= i < |init| && s in init[i].constraints;
        assert cols[i] == init[i];
      }
    }
  }

  /** The flat constraint list holds exactly the constraints some column carries. */
  lemma DesignConstraints(info: LayerInfo, tableName: Option<string>, s: string)
    ensures var d := DesignOf(info, tableName);
      s in d.constraints <==> exists i :: 0 <= i < |d.columns| && s in d.columns[i].constraints
  {
    DesignOfParts(info, tableName);
    AllConstraintsMembers(DesignOf(info, tableName).columns, s);
  }

  /** Every column of the list carries a description. */
  predicate AllDescribed(cols: seq<ColumnDesign>) {
    forall i :: 0 <= i < |cols| ==> !cols[i].note.NoNote?
  }

  lemma AllDescribedConcat(a: seq<ColumnDesign>, b: seq<ColumnDesign>)
    requires AllDescribed(a) && AllDescribed(b)
    ensures AllDescribed(a + b)
  {
    forall i | 0 <= i < |a + b| ensures !(a + b)[i].note.NoNote? {
      if i >= |a| {
        assert (a + b)[i] == b[i - |a|];
      }
    }
  }

  /** Every designed column has a description, so every definition line carries a comment. */
  lemma DesignColumnsDescribed(info: LayerInfo)
    ensures AllDescribed(DesignColumns(info))
  {
    var geom := if HasKnownGeometry(info.geometryType) then [GeomColumn(info.geometryType.value)] else [];
    var fields := FieldColumns(info.fields);
    assert AllDescribed(fields) by {
      forall i | 0 <= i < |fields| ensures !fields[i].note.NoNote? {
        assert fields[i] == FieldColumn(info.fields[i]);
      }
    }
    AllDescribedConcat([IdColumn], geom);
    AllDescribedConcat([IdColumn] + geom, [TileCodeColumn]);
    AllDescribedConcat([IdColumn] + geom + [TileCodeColumn], fields);
    AllDescribedConcat([IdColumn] + geom + [TileCodeColumn] + fields, [CreatedAtColumn, UpdatedAtColumn]);
  }

  /** When every column is described, there is one column comment per column, in column order. */
  lemma {:induction false} ColumnCommentsAll(t: string, cols: seq<ColumnDesign>)
    requires AllDescribed(cols)
    ensures |ColumnComments(t, cols)| == |cols|
    ensures forall i :: 0 <= i < |cols| ==> ColumnComments(t, cols)[i] == ColumnComment(t, cols[i])
    decreases |cols|
  {
    DescribedAll(cols);
  }

  lemma {:induction false} DescribedAll(cols: seq<ColumnDesign>)
    requires AllDescribed(cols)
    ensures Described(cols) == cols
    decreases |cols|
  {
    if |cols| > 0 {
      var init := cols[..|cols| - 1];
      DescribedAll(init);
      assert init + [cols[|cols| - 1]] == cols;
    }
  }

  /**
   * create_sql as the script builds it: the CREATE TABLE statement, then the index section
   * holding the index statements, the table comment, and one column comment per column.
   */
  lemma CreateTableSqlSections(info: LayerInfo, tableName: Option<string>)
    ensures var d := DesignOf(info, tableName);
      var t := d.tableName;
      && d.createSql ==
           CreateTableSql(t, d.columns)
           + (IndexHeading + Join("\n", d.indexes))
           + (TableCommentHeading + TableComment(t, d.description))
           + (ColumnCommentHeading + Join("\n", ColumnComments(t, d.columns)))
      && |ColumnComments(t, d.columns)| == |d.columns|
  {
    var d := DesignOf(info, tableName);
    DesignOfParts(info, tableName);
    DesignIndexes(info, tableName);
    DesignColumnsDescribed(info);
    ColumnCommentsAll(d.tableName, d.columns);
  }

  /** create_sql opens the CREATE TABLE statement and ends with the comment on updated_at, never with ");". */
  lemma CreateTableSqlShape(info: LayerInfo, tableName: Option<string>)
    ensures var d := DesignOf(info, tableName);
      && StartsWith(d.createSql, StatementHead(d.tableName))
      && EndsWith(d.createSql, ColumnComment(d.tableName, UpdatedAtColumn))
  {
    var d := DesignOf(info, tableName);
    var t := d.tableName;
    CreateTableSqlSections(info, tableName);
    var comments := ColumnComments(t, d.columns);
    LastCommentIsUpdatedAt(info, tableName);
    var rest := CreateTableSql(t, d.columns)
                + (IndexHeading + Join("\n", d.indexes))
                + (TableCommentHeading + TableComment(t, d.description));
    TextEnds(rest, ColumnCommentHeading, comments);
    TextStarts(t, ColumnDefs(d.columns), IndexHeading + Join("\n", d.indexes),
               TableCommentHeading + TableComment(t, d.description),
               ColumnCommentHeading + Join("\n", comments));
  }

  lemma LastCommentIsUpdatedAt(info: LayerInfo, tableName: Option<string>)
    ensures var d := DesignOf(info, tableName);
      var comments := ColumnComments(d.tableName, d.columns);
      |comments| > 0 && comments[|comments| - 1] == ColumnComment(d.tableName, UpdatedAtColumn)
  {
    var d := DesignOf(info, tableName);
    DesignOfParts(info, tableName);
    DesignLayout(info);
    DesignColumnsDescribed(info);
    ColumnCommentsAll(d.tableName, d.columns);
  }

  /** A text that ends with a heading and joined lines ends with the last line. */
  lemma TextEnds(rest: string, heading: string, lines: seq<string>)
    requires |lines| > 0
    ensures EndsWith(rest + (heading + Join("\n", lines)), lines[|lines| - 1])
  {
    JoinEndsWithLast("\n", lines);
    EndsWithConcat(heading, Join("\n", lines), lines[|lines| - 1]);
    EndsWithConcat(rest, heading + Join("\n", lines), lines[|lines| - 1]);
  }

  /** A text that begins with the CREATE TABLE statement begins with its head. */
  lemma TextStarts(t: string, defs: seq<string>, x: string, y: string, z: string)
    ensures StartsWith(TableStatement(t, defs) + x + y + z, StatementHead(t))
  {
    var head := StatementHead(t);
    var s := TableStatement(t, defs) + x + y + z;
    assert s[..|head|] == TableStatement(t, defs)[..|head|];
    StartsWithConcat(head, Join(",\n", defs) + "\n);");
  }

  lemma StartsWithConcat(a: string, b: string)
    ensures StartsWith(a + b, a)
  {
    assert (a + b)[..|a|] == a;
  }

  /** A join of a non-empty list ends with its last element. */
  lemma {:induction false} JoinEndsWithLast(sep: string, parts: seq<string>)
    requires |parts| > 0
    ensures EndsWith(Join(sep, parts), parts[|parts| - 1])
    decreases |parts|
  {
    if |parts| > 1 {
      JoinEndsWithLast(sep, parts[1..]);
      EndsWithConcat(parts[0] + sep, Join(sep, parts[1..]), parts[|parts| - 1]);
    }
  }

  lemma EndsWithConcat(a: string, b: string, p: string)
    requires EndsWith(b, p)
    ensures EndsWith(a + b, p)
  {
    assert (a + b)[|a + b| - |p|..] == b[|b| - |p|..];
  }

  // ---------------------------------------------------------------------------
  // The column separators of create_sql

  /** Each element but the last followed by `sep`: the lines that joining with sep + "\n" produces. */
  function Terminated(parts: seq<string>, sep: string): (r: seq<string>)
    ensures |r| == |parts|
    ensures forall k :: 0 <= k < |parts| ==> r[k] == parts[k] + (if k < |parts| - 1 then sep else "")
  {
    seq(|parts|, k requires 0 <= k < |parts| => parts[k] + (if k < |parts| - 1 then sep else ""))
  }

  /** Joining with sep + "\n" is joining the terminated lines with "\n". */
  lemma {:induction false} JoinTerminated(parts: seq<string>, sep: string)
    ensures Join(sep + "\n", parts) == Join("\n", Terminated(parts, sep))
    decreases |parts|
  {
    if |parts| >= 2 {
      var tail := parts[1..];
      JoinTerminated(tail, sep);
      var lines := Terminated(parts, sep);
      assert lines[1..] == Terminated(tail, sep);
      assert lines[0] == parts[0] + sep;
    }
  }

  /** The SQL parts of the definition lines, in column order. */
  function ColumnSqls(cols: seq<ColumnDesign>): (r: seq<string>)
    ensures |r| == |cols|
    ensures forall i :: 0 <= i < |cols| ==> r[i] == ColumnSql(cols[i])
  {
    seq(|cols|, i requires 0 <= i < |cols| => ColumnSql(cols[i]))
  }

  /**
   * As written, the separator of every definition line but the last follows the line's
   * "  -- description" comment: the comma is inside a comment that runs to the end of the line,
   * so the CREATE TABLE statement of a design has no separator between its columns.
   */
  lemma CommasInCommentsAsWritten(info: LayerInfo)
    ensures var cols := DesignColumns(info);
      var lines := Terminated(ColumnDefs(cols), ",");
      && Join(",\n", ColumnDefs(cols)) == Join("\n", lines)
      && forall k :: 0 <= k < |cols| - 1 ==>
           lines[k] == ColumnSql(cols[k]) + (CommentMark + Description(cols[k].note)) + ","
  {
    DesignColumnsDescribed(info);
    CommasInComments(DesignColumns(info));
  }

  /** The separators of described columns, joined as written, follow their comments. */
  lemma CommasInComments(cols: seq<ColumnDesign>)
    requires AllDescribed(cols)
    ensures var lines := Terminated(ColumnDefs(cols), ",");
      && Join(",\n", ColumnDefs(cols)) == Join("\n", lines)
      && forall k :: 0 <= k < |cols| - 1 ==>
           lines[k] == ColumnSql(cols[k]) + (CommentMark + Description(cols[k].note)) + ","
  {
    JoinTerminated(ColumnDefs(cols), ",");
    assert "," + "\n" == ",\n";
    forall k | 0 <= k < |cols| - 1
      ensures Terminated(ColumnDefs(cols), ",")[k] == ColumnSql(cols[k]) + (CommentMark + Description(cols[k].note)) + ","
    {
      DescriptionNonEmpty(cols[k].note);
    }
  }

  /** The first line of every design: the id column's definition, its comment, then the comma. */
  lemma IdLineAsWritten(info: LayerInfo)
    ensures Terminated(ColumnDefs(DesignColumns(info)), ",")[0]
      == "    id BIGSERIAL PRIMARY KEY" + (CommentMark + IdDescription) + ","
  {
    var cols := DesignColumns(info);
    assert cols[0] == IdColumn;
    assert Join(" ", IdColumn.constraints) == "PRIMARY KEY";
  }

  /** The corrected definition lines: the separator after the SQL part, before the comment. */
  function CorrectedColumnLines(cols: seq<ColumnDesign>): (r: seq<string>)
    ensures |r| == |cols|
  {
    seq(|cols|, k requires 0 <= k < |cols| =>
      ColumnSql(cols[k]) + (if k < |cols| - 1 then "," else "") + CommentOf(cols[k]))
  }

  /** The corrected CREATE TABLE statement. */
  function CorrectedCreateTableSql(t: string, cols: seq<ColumnDesign>): string {
    "CREATE TABLE " + t + " (" + "\n" + Join("\n", CorrectedColumnLines(cols)) + "\n" + ");"
  }

  /**
   * Corrected, every line is its SQL part with its separator, then its comment; with the
   * comments removed, the lines are the SQL parts joined by ",\n", one comma between each two.
   */
  lemma CorrectedSeparatorsPrecedeComments(cols: seq<ColumnDesign>)
    ensures var code := Terminated(ColumnSqls(cols), ",");
      && (forall k :: 0 <= k < |cols| ==> CorrectedColumnLines(cols)[k] == code[k] + CommentOf(cols[k]))
      && (forall k :: 0 <= k < |cols| - 1 ==> code[k] == ColumnSql(cols[k]) + ",")
      && Join("\n", code) == Join(",\n", ColumnSqls(cols))
  {
    JoinTerminated(ColumnSqls(cols), ",");
    assert "," + "\n" == ",\n";
  }

  /** A field whose type inference did not finish is declared with the literal type "None" as written. */
  lemma UnfinishedFieldTypeAsWritten(p: Profile)
    requires p.recommendedType.None?
    ensures FieldColumnTypeAsWritten(p) == "None"
    ensures FieldColumnType(p) == "TEXT"
  {
  }
}
