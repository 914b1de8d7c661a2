// GDBImporter._create_table_if_not_exists of core/gdb_importer.py against the catalog: a
// layer without geometry is refused; a new table gets id, geom, tile_code and one column per
// source field; an existing table only gains a missing tile_code column; index DDL never
// decides the result.

module ImporterTable {
  import opened Wrappers
  import opened Strings
  import opened Identifiers
  import opened TypeInference
  import opened Database
  import opened LayerImport

  /** Whether CREATE TABLE, and ALTER TABLE ... ADD COLUMN tile_code, succeed for a table. */
  datatype DdlOracle = DdlOracle(createOk: string -> bool, alterOk: string -> bool)

  /** The column a source field becomes: its case-preserving clean name and its mapped type. */
  function FieldDef(prop: (string, string)): string {
    ImporterCleanIdentifier(prop.0, MaxIdentifierLength) + " " + ImporterPgType(prop.1).ToSql()
  }

  /** The text appended by the `create_table_sql +=` loop. */
  function FieldDefsText(props: seq<(string, string)>): string {
    if |props| == 0 then ""
    else FieldDefsText(props[..|props| - 1]) + ",\n    " + FieldDef(props[|props| - 1])
  }

  function CreateHead(t: string, srid: int): string {
    "CREATE TABLE public." + t + " (\n    id SERIAL PRIMARY KEY,\n    geom GEOMETRY(GEOMETRY, "
      + IntToString(srid) + "),\n    tile_code VARCHAR(10)"
  }

  /** The CREATE TABLE statement, with the layout whitespace normalised. */
  function CreateSql(t: string, props: seq<(string, string)>, srid: int): string {
    CreateHead(t, srid) + FieldDefsText(props) + "\n);"
  }

  /** The column names the statement declares, before PostgreSQL folds them. */
  function CreatedColumns(props: seq<(string, string)>): (r: seq<string>)
    ensures |r| == 3 + |props|
    ensures r[..3] == ["id", "geom", "tile_code"]
    ensures forall i :: 0 <= i < |props| ==> r[3 + i] == ImporterCleanIdentifier(props[i].0, MaxIdentifierLength)
  {
    ["id", "geom", "tile_code"]
      + seq(|props|, i requires 0 <= i < |props| => ImporterCleanIdentifier(props[i].0, MaxIdentifierLength))
  }

  function GeomIndexSql(t: string): string {
    "CREATE INDEX IF NOT EXISTS " + t + "_geom_idx ON public." + t + " USING GIST (geom);"
  }

  function TileIndexSql(t: string): string {
    "CREATE INDEX IF NOT EXISTS " + t + "_tile_code_idx ON public." + t + " (tile_code);"
  }

  function AlterSql(t: string): string {
    "ALTER TABLE public." + t + " ADD COLUMN tile_code VARCHAR(10);"
  }

  /** The returned flag and the DDL statements issued, in order. */
  datatype Ensured = Ensured(ok: bool, issued: seq<string>)

  /**
   * What one call decides whatever it is asked about indexes: the new catalog, the flag, the
   * statement it issues first and the index statements that may follow.
   */
  datatype EnsurePlan = EnsurePlan(tables: map<string, seq<string>>, ok: bool, ddl: seq<string>, indexDdl: seq<string>)

  /**
   * The existence test compares the name exactly; CREATE fails when the oracle says so or when
   * the folded name is already taken.
   */
  function EnsurePlanOf(tables: map<string, seq<string>>, t: string, geometryType: Option<string>,
                        props: seq<(string, string)>, srid: int, o: DdlOracle): (r: EnsurePlan)
    ensures |r.ddl| <= 1
  {
    if geometryType.None? then EnsurePlan(tables, false, [], [])
    else if t !in tables then
      var sql := CreateSql(t, props, srid);
      if !o.createOk(t) || Fold(t) in tables then EnsurePlan(tables, false, [sql], [])
      else EnsurePlan(tables[Fold(t) := FoldAll(CreatedColumns(props))], true, [sql], [GeomIndexSql(t), TileIndexSql(t)])
    else if "tile_code" in tables[t] then EnsurePlan(tables, true, [], [])
    else if !o.alterOk(t) then EnsurePlan(tables, true, [AlterSql(t)], [])
    else EnsurePlan(tables[t := tables[t] + ["tile_code"]], true, [AlterSql(t)], [TileIndexSql(t)])
  }

  /** The new catalog and the result: the index statements follow only when asked for. */
  function EnsureTableOf(tables: map<string, seq<string>>, t: string, geometryType: Option<string>,
                         props: seq<(string, string)>, srid: int, createIndexes: bool,
                         o: DdlOracle): (map<string, seq<string>>, Ensured)
  {
    var p := EnsurePlanOf(tables, t, geometryType, props, srid, o);
    (p.tables, Ensured(p.ok, p.ddl + (if createIndexes then p.indexDdl else [])))
  }

  lemma FoldFixedColumns()
    ensures Fold("id") == "id" && Fold("geom") == "geom" && Fold("tile_code") == "tile_code"
  {
    var s1, s2, s3 := "id", "geom", "tile_code";
    assert forall i :: 0 <= i < |s1| ==> !IsAsciiUpper(s1[i]);
    assert forall i :: 0 <= i < |s2| ==> !IsAsciiUpper(s2[i]);
    assert forall i :: 0 <= i < |s3| ==> !IsAsciiUpper(s3[i]);
    FoldOfFolded(s1);
    FoldOfFolded(s2);
    FoldOfFolded(s3);
  }

  lemma FieldDefsTextNext(head: string, props: seq<(string, string)>, i: nat)
    requires i < |props|
    ensures head + FieldDefsText(props[..i + 1]) == head + FieldDefsText(props[..i]) + ",\n    " + FieldDef(props[i])
  {
    assert props[..i + 1][..i] == props[..i];
  }

  /** The statement text built field by field, as the source's `+=` loop does. */
  method BuildCreateSql(t: string, props: seq<(string, string)>, srid: int) returns (sql: string)
    ensures sql == CreateSql(t, props, srid)
  {
    var head := CreateHead(t, srid);
    sql := head;
    var i := 0;
    assert head + FieldDefsText(props[..0]) == head;
    while i < |props|
      invariant 0 <= i <= |props|
      invariant sql == head + FieldDefsText(props[..i])
    {
      FieldDefsTextNext(head, props, i);
      sql := sql + ",\n    " + FieldDef(props[i]);
      i := i + 1;
    }
    assert props[..|props|] == props;
    sql := sql + "\n);";
  }

  /** _create_table_if_not_exists. */
  method CreateTableIfNotExists(catalog: Catalog, t: string, geometryType: Option<string>,
                                props: seq<(string, string)>, srid: int, createIndexes: bool,
                                o: DdlOracle) returns (e: Ensured)
    modifies catalog
    ensures (catalog.tables, e) == EnsureTableOf(old(catalog.tables), t, geometryType, props, srid, createIndexes, o)
  {
    var none: seq<string> := [];
    assert none + none == none;
    if geometryType.None? {
      return Ensured(false, none);
    }
    if !catalog.HasTable(t) {
      var sql := BuildCreateSql(t, props, srid);
      if !o.createOk(t) || catalog.HasTable(Fold(t)) {
        assert [sql] + [] == [sql];
        return Ensured(false, [sql]);
      }
      catalog.CreateTable(t, CreatedColumns(props));
      if createIndexes {
        e := Ensured(true, [sql] + [GeomIndexSql(t), TileIndexSql(t)]);
      } else {
        e := Ensured(true, [sql]);
        assert [sql] + [] == [sql];
      }
      return;
    }
    if catalog.HasColumn(t, "tile_code") {
      return Ensured(true, none);
    }
    if !o.alterOk(t) {
      assert [AlterSql(t)] + [] == [AlterSql(t)];
      return Ensured(true, [AlterSql(t)]);
    }
    FoldFixedColumns();
    catalog.AddColumn(t, "tile_code");
    if createIndexes {
      e := Ensured(true, [AlterSql(t)] + [TileIndexSql(t)]);
    } else {
      e := Ensured(true, [AlterSql(t)]);
      assert [AlterSql(t)] + [] == [AlterSql(t)];
    }
  }

  // ---------------------------------------------------------------------------
  // Properties

  /** False, with nothing issued, for a schema without geometry; False also when CREATE fails. */
  lemma EnsureFailures(tables: map<string, seq<string>>, t: string, geometryType: Option<string>,
                       props: seq<(string, string)>, srid: int, createIndexes: bool, o: DdlOracle)
    ensures var (tables', e) := EnsureTableOf(tables, t, geometryType, props, srid, createIndexes, o);
      && (geometryType.None? ==> !e.ok && e.issued == [] && tables' == tables)
      && (!e.ok ==> tables' == tables)
      && (e.ok <==> geometryType.Some? && (t in tables || (o.createOk(t) && Fold(t) !in tables)))
  {
  }

  lemma EnsureNewTable(tables: map<string, seq<string>>, t: string, g: string,
                       props: seq<(string, string)>, srid: int, createIndexes: bool, o: DdlOracle)
    requires t !in tables && Fold(t) !in tables && o.createOk(t)
    ensures EnsureTableOf(tables, t, Some(g), props, srid, createIndexes, o)
      == (tables[Fold(t) := FoldAll(CreatedColumns(props))],
          Ensured(true, [CreateSql(t, props, srid)] + (if createIndexes then [GeomIndexSql(t), TileIndexSql(t)] else [])))
  {
  }

  lemma FixedColumnsFolded(props: seq<(string, string)>)
    ensures FoldAll(CreatedColumns(props))[..3] == ["id", "geom", "tile_code"]
  {
    var cols := FoldAll(CreatedColumns(props));
    FoldFixedColumns();
    assert cols[0] == "id" && cols[1] == "geom" && cols[2] == "tile_code";
  }

  /**
   * A new table is stored under its folded name with id, geom, tile_code and one column per
   * source field, folded, in schema order; no other table changes.
   */
  lemma NewTableLayout(tables: map<string, seq<string>>, t: string, g: string,
                       props: seq<(string, string)>, srid: int, createIndexes: bool, o: DdlOracle)
    requires t !in tables && Fold(t) !in tables && o.createOk(t)
    ensures var (tables', e) := EnsureTableOf(tables, t, Some(g), props, srid, createIndexes, o);
      && e.ok
      && tables'.Keys == tables.Keys + {Fold(t)}
      && (forall u :: u in tables ==> tables'[u] == tables[u])
      && |tables'[Fold(t)]| == 3 + |props|
      && tables'[Fold(t)][..3] == ["id", "geom", "tile_code"]
      && (forall i :: 0 <= i < |props| ==>
            tables'[Fold(t)][3 + i] == Fold(ImporterCleanIdentifier(props[i].0, MaxIdentifierLength)))
      && e.issued[0] == CreateSql(t, props, srid)
  {
    var cols := FoldAll(CreatedColumns(props));
    EnsureNewTable(tables, t, g, props, srid, createIndexes, o);
    FixedColumnsFolded(props);
  }

  /** An existing table keeps its columns and gains tile_code only when it lacks one (and ALTER succeeds). */
  lemma ExistingTableOnlyGainsTileCode(tables: map<string, seq<string>>, t: string, g: string,
                                       props: seq<(string, string)>, srid: int, createIndexes: bool,
                                       o: DdlOracle)
    requires t in tables
    ensures var (tables', e) := EnsureTableOf(tables, t, Some(g), props, srid, createIndexes, o);
      && e.ok
      && tables'.Keys == tables.Keys
      && (forall u :: u in tables && u != t ==> tables'[u] == tables[u])
      && ("tile_code" in tables[t] || !o.alterOk(t) ==> tables'[t] == tables[t])
      && ("tile_code" !in tables[t] && o.alterOk(t) ==> tables'[t] == tables[t] + ["tile_code"])
      && (forall s :: s in e.issued ==> s == AlterSql(t) || s == TileIndexSql(t))
  {
  }

  /** Index DDL is issued only when asked for, and neither the result nor the catalog depends on it. */
  lemma IndexesDoNotDecide(tables: map<string, seq<string>>, t: string, geometryType: Option<string>,
                           props: seq<(string, string)>, srid: int, o: DdlOracle)
    ensures var (a, ea) := EnsureTableOf(tables, t, geometryType, props, srid, true, o);
      var (b, eb) := EnsureTableOf(tables, t, geometryType, props, srid, false, o);
      a == b && ea.ok == eb.ok && |eb.issued| <= 1 && eb.issued <= ea.issued
  {
    var p := EnsurePlanOf(tables, t, geometryType, props, srid, o);
    assert p.ddl + [] == p.ddl;
    assert (p.ddl + p.indexDdl)[..|p.ddl|] == p.ddl;
  }

  /**
   * As written, the mapping looks fields up under their case-preserving clean name, while the
   * catalog holds folded names: a field whose clean name has an upper-case letter is never
   * the source of any column.
   */
  lemma UppercaseFieldNeverMapped(fields: seq<string>, columns: seq<string>, f: string, i: nat)
    requires forall c :: c in columns ==> Fold(c) == c
    requires i < |ImporterCleanIdentifier(f, MaxIdentifierLength)|
    requires IsAsciiUpper(ImporterCleanIdentifier(f, MaxIdentifierLength)[i])
    ensures var m := Mapping(Importer, fields, DataColumns(columns, Excluded(Importer)));
      forall k :: 0 <= k < |m| ==> m[k].1 != f
  {
  }

  /** The smallest instance: a table created from the field "NAME" receives nothing from it. */
  lemma UppercaseFieldExample(tables: map<string, seq<string>>, t: string, g: string, srid: int, o: DdlOracle)
    requires t !in tables && Fold(t) !in tables && o.createOk(t)
    ensures var tables' := EnsureTableOf(tables, t, Some(g), [("NAME", "str")], srid, false, o).0;
      Mapping(Importer, ["NAME"], DataColumns(tables'[Fold(t)], Excluded(Importer))) == []
  {
    var props := [("NAME", "str")];
    EnsureNewTable(tables, t, g, props, srid, false, o);
    var cols := FoldAll(CreatedColumns(props));
    CleanName();
    CreatedColumnsFolded(props);
    assert !IsAsciiUpper(Fold("NAME")[0]) && IsAsciiUpper("NAME"[0]);
    assert "NAME" !in cols;
    UnusedFieldMapsNothing(Importer, "NAME", DataColumns(cols, Excluded(Importer)));
  }

  /** A field whose clean name is not among the data columns maps nothing. */
  lemma {:induction false} UnusedFieldMapsNothing(v: Variant, f: string, data: seq<string>)
    requires Clean(v, f) !in data
    ensures Mapping(v, [f], data) == []
  {
    if |data| > 0 {
      assert data == data[..|data| - 1] + [data[|data| - 1]];
      UnusedFieldMapsNothing(v, f, data[..|data| - 1]);
    }
  }

  lemma CleanName()
    ensures ImporterCleanIdentifier("NAME", MaxIdentifierLength) == "NAME"
  {
    var s := "NAME";
    assert Underscored(s, true) == s;
  }

  /** Every column of a created table is stored folded. */
  lemma CreatedColumnsFolded(props: seq<(string, string)>)
    ensures forall c :: c in FoldAll(CreatedColumns(props)) ==> Fold(c) == c
  {
    var cols := FoldAll(CreatedColumns(props));
    forall c | c in cols ensures Fold(c) == c {
      var j :| 0 <= j < |cols| && cols[j] == c;
      FoldIdempotent(CreatedColumns(props)[j]);
    }
  }

  /**
   * With the lookup folded as the catalog folds, every non-empty field of a freshly created
   * table is mapped to its column, unless it folds to one of id, geom and tile_code.
   */
  lemma FoldedFieldsAllMapped(tables: map<string, seq<string>>, t: string, g: string,
                              props: seq<(string, string)>, srid: int, createIndexes: bool,
                              o: DdlOracle, j: nat)
    requires t !in tables && Fold(t) !in tables && o.createOk(t)
    requires j < |props| && props[j].0 != ""
    requires Clean(ImporterFolded, props[j].0) !in Excluded(ImporterFolded)
    ensures var tables' := EnsureTableOf(tables, t, Some(g), props, srid, createIndexes, o).0;
      Clean(ImporterFolded, props[j].0)
        in Columns(Mapping(ImporterFolded, FieldNames(props), DataColumns(tables'[Fold(t)], Excluded(ImporterFolded))))
  {
    var tables' := EnsureTableOf(tables, t, Some(g), props, srid, createIndexes, o).0;
    NewTableLayout(tables, t, g, props, srid, createIndexes, o);
    var cols := tables'[Fold(t)];
    var c := Clean(ImporterFolded, props[j].0);
    assert cols[3 + j] == c;
    assert FieldNames(props)[j] == props[j].0;
    MappingComplete(ImporterFolded, FieldNames(props), DataColumns(cols, Excluded(ImporterFolded)), c);
  }
}
