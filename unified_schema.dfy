// The shared table set of scripts/create_unified_schema.py (create_unified_table_schema): one
// table per analysed layer, created once for all tiles, with every layer ending either created
// or skipped.

module UnifiedSchema {
  import opened Wrappers
  import opened Strings
  import opened Identifiers
  import opened TypeInference
  import opened FieldProfile
  import opened LayerProfile
  import opened TableDesign
  import opened Database

  datatype SkipReason = AnalysisFailed | AlreadyExists | CreateFailed

  /** A tables_skipped entry; an analysis failure is reported before a table name is derived. */
  datatype SkippedTable = SkippedTable(layer: string, table: Option<string>, reason: SkipReason)

  /** A tables_created entry: the number of column definitions and of indexes created. */
  datatype CreatedTable = CreatedTable(layer: string, table: string, geometryType: Option<string>,
                                       columns: nat, indexes: nat)

  datatype SchemaError = ExtensionUnavailable | TableFailed(table: string)

  /** The exception that escapes the function: the existence query of `table` in an aborted transaction. */
  datatype SchemaRaise = InFailedSqlTransaction(table: string)

  datatype SchemaResult = SchemaResult(
    created: seq<CreatedTable>,
    skipped: seq<SkippedTable>,
    errors: seq<SchemaError>)

  /**
   * What the database answers to the statements of this script: whether the PostGIS extension
   * can be installed, whether CREATE TABLE and the geom and tile_code indexes succeed for a table,
   * whether a secondary index on a (table, column) succeeds, and whether the COMMENT ON
   * statements of a table succeed on the columns it has.
   */
  datatype DdlOutcomes = DdlOutcomes(
    extensionOk: bool,
    createOk: string -> bool,
    geomIndexOk: string -> bool,
    tileIndexOk: string -> bool,
    commonIndexOk: (string, string) -> bool,
    commentOk: string -> bool)

  /** The columns that get a secondary index when the table has them. */
  const CommonIndexFields: seq<string> := ["gb", "name", "class", "type", "rn"]

  /** A data column: the clean name and the unified type; never a constraint. */
  function UnifiedDataColumn(entry: (string, Profile)): ColumnDesign {
    ColumnDesign(DesignColumnName(entry.0),
                 UnifiedPgType(entry.1.fionaType, entry.1.tally.maxLength).ToSql(), [], None, Some(entry.0), NoNote)
  }

  function UnifiedDataColumns(fields: seq<(string, Profile)>): (r: seq<ColumnDesign>)
    ensures |r| == |fields|
    ensures forall i :: 0 <= i < |fields| ==> r[i] == UnifiedDataColumn(fields[i])
  {
    seq(|fields|, i requires 0 <= i < |fields| => UnifiedDataColumn(fields[i]))
  }

  /** The generic geometry column, declared with the requested SRID. */
  function UnifiedGeomColumn(srid: int): ColumnDesign {
    ColumnDesign("geom", "GEOMETRY(GEOMETRY, " + IntToString(srid) + ")", [], Some(Gist), None, NoNote)
  }

  /** The column definitions of a unified table, in order. */
  function UnifiedColumns(info: LayerInfo, srid: int): seq<ColumnDesign> {
    [IdColumn]
    + (if HasKnownGeometry(info.geometryType) then [UnifiedGeomColumn(srid)] else [])
    + [TileCodeColumn]
    + UnifiedDataColumns(info.fields)
    + [CreatedAtColumn, UpdatedAtColumn]
  }

  function ColumnNames(cols: seq<ColumnDesign>): (r: seq<string>)
    ensures |r| == |cols|
    ensures forall i :: 0 <= i < |cols| ==> r[i] == cols[i].name
  {
    seq(|cols|, i requires 0 <= i < |cols| => cols[i].name)
  }

  /** The secondary indexes created: the common fields present among the table's columns whose index succeeds. */
  function CommonIndexCount(t: string, fields: seq<string>, columns: seq<string>,
                            ok: (string, string) -> bool): (r: nat)
    ensures r <= |fields|
  {
    if |fields| == 0 then 0
    else CommonIndexCount(t, fields[..|fields| - 1], columns, ok)
         + (if fields[|fields| - 1] in columns && ok(t, fields[|fields| - 1]) then 1 else 0)
  }

  /**
   * Where the common-index loop stands: the indexes it created, whether a failed CREATE INDEX
   * has aborted the transaction, and whether a statement then raised. The failed index itself
   * is swallowed, but PostgreSQL refuses every later statement of an aborted transaction, so
   * the next field's information_schema query raises out of the loop.
   */
  datatype PassState = PassState(count: nat, aborted: bool, raised: bool)

  function CommonPass(t: string, fields: seq<string>, columns: seq<string>,
                      ok: (string, string) -> bool): (r: PassState)
    ensures r.raised ==> r.aborted
  {
    if |fields| == 0 then PassState(0, false, false)
    else
      var p := CommonPass(t, fields[..|fields| - 1], columns, ok);
      var f := fields[|fields| - 1];
      if p.raised then p
      else if p.aborted then p.(raised := true)
      else if f in columns && !ok(t, f) then p.(aborted := true)
      else p.(count := p.count + (if f in columns then 1 else 0))
  }

  /** A field whose index is attempted and fails. */
  predicate IndexFails(t: string, f: string, columns: seq<string>, ok: (string, string) -> bool) {
    f in columns && !ok(t, f)
  }

  /**
   * The loop raises exactly when a field other than the last has a failing index; the
   * transaction ends aborted exactly when some field's index fails; and a loop that does not
   * raise has created the indexes CommonIndexCount counts.
   */
  lemma {:induction false} CommonPassFacts(t: string, fields: seq<string>, columns: seq<string>,
                                           ok: (string, string) -> bool)
    ensures var r := CommonPass(t, fields, columns, ok);
      && (r.raised <==> exists i :: 0 <= i < |fields| - 1 && IndexFails(t, fields[i], columns, ok))
      && (r.aborted <==> exists i :: 0 <= i < |fields| && IndexFails(t, fields[i], columns, ok))
      && (!r.raised ==> r.count == CommonIndexCount(t, fields, columns, ok))
  {
    if |fields| > 0 {
      var q := fields[..|fields| - 1];
      CommonPassFacts(t, q, columns, ok);
      var p := CommonPass(t, q, columns, ok);
      var r := CommonPass(t, fields, columns, ok);
      assert forall i :: 0 <= i < |q| ==> q[i] == fields[i];
      if r.raised && !p.raised {
        assert p.aborted;
        var i :| 0 <= i < |q| && IndexFails(t, q[i], columns, ok);
        assert IndexFails(t, fields[i], columns, ok);
      }
      if exists i :: 0 <= i < |fields| - 1 && IndexFails(t, fields[i], columns, ok) {
        var i :| 0 <= i < |fields| - 1 && IndexFails(t, fields[i], columns, ok);
        assert IndexFails(t, q[i], columns, ok);
        assert p.aborted;
      }
      if r.aborted && !p.aborted {
        assert IndexFails(t, fields[|fields| - 1], columns, ok);
      }
      if exists i :: 0 <= i < |fields| && IndexFails(t, fields[i], columns, ok) {
        var i :| 0 <= i < |fields| && IndexFails(t, fields[i], columns, ok);
        if i < |q| {
          assert IndexFails(t, q[i], columns, ok);
        }
      }
    }
  }

  /** Once the loop has raised, the remaining fields change nothing. */
  lemma {:induction false} RaisedStays(t: string, fields: seq<string>, j: nat, columns: seq<string>,
                                       ok: (string, string) -> bool)
    requires j <= |fields| && CommonPass(t, fields[..j], columns, ok).raised
    ensures CommonPass(t, fields, columns, ok) == CommonPass(t, fields[..j], columns, ok)
  {
    if j < |fields| {
      var q := fields[..|fields| - 1];
      assert q[..j] == fields[..j];
      RaisedStays(t, q, j, columns, ok);
    } else {
      assert fields[..j] == fields;
    }
  }

  /**
   * One layer against the catalog as it stands: the new catalog and the result with this
   * layer's entry added, as written: a common index that fails before the last field makes the
   * layer an error and a skip, although its committed table stays.
   */
  function LayerStep(tables: map<string, seq<string>>, res: SchemaResult, info: LayerInfo,
                     srid: int, o: DdlOutcomes): (map<string, seq<string>>, SchemaResult)
  {
    LayerStepOf(tables, res, info, srid, o, false)
  }

  /** The layer step with the common indexes best-effort, as their swallowed failures intend. */
  function LayerStepBestEffort(tables: map<string, seq<string>>, res: SchemaResult, info: LayerInfo,
                               srid: int, o: DdlOutcomes): (map<string, seq<string>>, SchemaResult)
  {
    LayerStepOf(tables, res, info, srid, o, true)
  }

  /** The layer step; `bestEffort` lets a failed common index pass over instead of aborting the rest. */
  function LayerStepOf(tables: map<string, seq<string>>, res: SchemaResult, info: LayerInfo,
                       srid: int, o: DdlOutcomes, bestEffort: bool): (map<string, seq<string>>, SchemaResult)
  {
    if info.failed then
      (tables, res.(skipped := res.skipped + [SkippedTable(info.layerName, None, AnalysisFailed)]))
    else
      var t := Lower(info.layerName);
      if t in tables then
        (tables, res.(skipped := res.skipped + [SkippedTable(info.layerName, Some(t), AlreadyExists)]))
      else
        var cols := UnifiedColumns(info, srid);
        var geom := HasKnownGeometry(info.geometryType);
        if !o.createOk(t) then
          (tables, res.(errors := res.errors + [TableFailed(t)],
                        skipped := res.skipped + [SkippedTable(info.layerName, Some(t), CreateFailed)]))
        else
          // CREATE TABLE is committed before the indexes: an index failure keeps the table.
          var tables' := tables[Fold(t) := FoldAll(ColumnNames(cols))];
          var raised := !bestEffort && CommonPass(t, CommonIndexFields, tables'[Fold(t)], o.commonIndexOk).raised;
          if (geom && !o.geomIndexOk(t)) || !o.tileIndexOk(t) || raised then
            (tables', res.(errors := res.errors + [TableFailed(t)],
                           skipped := res.skipped + [SkippedTable(info.layerName, Some(t), CreateFailed)]))
          else
            var n := (if geom then 1 else 0) + 1
                     + CommonIndexCount(t, CommonIndexFields, tables'[Fold(t)], o.commonIndexOk);
            (tables', res.(created := res.created + [CreatedTable(info.layerName, t, info.geometryType, |cols|, n)]))
  }

  /** The layers, read in order, against a catalog that grows with every table created. */
  function LayersStep(tables: map<string, seq<string>>, layers: seq<LayerInfo>, srid: int,
                      o: DdlOutcomes): (map<string, seq<string>>, SchemaResult)
  {
    if |layers| == 0 then (tables, SchemaResult([], [], []))
    else
      var prev := LayersStep(tables, layers[..|layers| - 1], srid, o);
      LayerStep(prev.0, prev.1, layers[|layers| - 1], srid, o)
  }

  /** `geometry_type and geometry_type != "Unknown"`: the guard of the geom COMMENT, as written. */
  predicate GeomCommented(geometryType: Option<string>) {
    geometryType.Some? && geometryType.value != "" && geometryType.value != "Unknown"
  }

  /**
   * Whether the comment block of a created table fails: a COMMENT is refused, or the geom COMMENT
   * is issued for a table without a geom column. As written its guard lacks the `!= "None"` of
   * the column's own guard; `guarded` adds it. The failure is swallowed without a rollback,
   * so the transaction stays aborted.
   */
  predicate CommentsAbort(info: LayerInfo, o: DdlOutcomes, guarded: bool) {
    || !o.commentOk(Lower(info.layerName))
    || (!guarded && GeomCommented(info.geometryType) && !HasKnownGeometry(info.geometryType))
  }

  /** The layer step adds a tables_created entry. */
  predicate Creates(tables: map<string, seq<string>>, res: SchemaResult, info: LayerInfo, srid: int, o: DdlOutcomes) {
    |LayerStep(tables, res, info, srid, o).1.created| > |res.created|
  }

  /** The layer is created and leaves the transaction aborted behind it. */
  predicate LeavesAborted(tables: map<string, seq<string>>, res: SchemaResult, info: LayerInfo, srid: int,
                          o: DdlOutcomes, guarded: bool) {
    Creates(tables, res, info, srid, o) && CommentsAbort(info, o, guarded)
  }

  /**
   * Where the layer loop stands: the catalog, the result so far, whether the transaction is
   * left aborted, and the table whose existence query raised, once one has.
   */
  datatype LoopState = LoopState(tables: map<string, seq<string>>, result: SchemaResult, aborted: bool,
                                 raisedAt: Option<string>)

  /**
   * One pass of the layer loop: a layer with an analysis error issues no statement; any other
   * layer's SELECT EXISTS raises in an aborted transaction; otherwise the layer step, after
   * which the transaction is aborted exactly when the layer's comment block failed.
   */
  function LoopStep(s: LoopState, info: LayerInfo, srid: int, o: DdlOutcomes, guarded: bool): LoopState {
    if s.raisedAt.Some? then s
    else if !info.failed && s.aborted then s.(raisedAt := Some(Lower(info.layerName)))
    else
      var n := LayerStep(s.tables, s.result, info, srid, o);
      LoopState(n.0, n.1, if info.failed then s.aborted else LeavesAborted(s.tables, s.result, info, srid, o, guarded), None)
  }

  function LayersRun(tables: map<string, seq<string>>, layers: seq<LayerInfo>, srid: int, o: DdlOutcomes,
                     guarded: bool): LoopState
  {
    if |layers| == 0 then LoopState(tables, SchemaResult([], [], []), false, None)
    else LoopStep(LayersRun(tables, layers[..|layers| - 1], srid, o, guarded), layers[|layers| - 1], srid, o, guarded)
  }

  /** create_unified_table_schema as written: the new catalog, and the result or the exception. */
  function SchemaOf(tables: map<string, seq<string>>, layers: seq<LayerInfo>, srid: int,
                    o: DdlOutcomes): (map<string, seq<string>>, Result<SchemaResult, SchemaRaise>)
  {
    SchemaRunOf(tables, layers, srid, o, false)
  }

  /** create_unified_table_schema with the geom COMMENT guarded like the geom column. */
  function SchemaCorrectedOf(tables: map<string, seq<string>>, layers: seq<LayerInfo>, srid: int,
                             o: DdlOutcomes): (map<string, seq<string>>, Result<SchemaResult, SchemaRaise>)
  {
    SchemaRunOf(tables, layers, srid, o, true)
  }

  function SchemaRunOf(tables: map<string, seq<string>>, layers: seq<LayerInfo>, srid: int,
                       o: DdlOutcomes, guarded: bool): (map<string, seq<string>>, Result<SchemaResult, SchemaRaise>)
  {
    if !o.extensionOk then (tables, Ok(SchemaResult([], [], [ExtensionUnavailable])))
    else
      var s := LayersRun(tables, layers, srid, o, guarded);
      (s.tables, if s.raisedAt.Some? then Err(InFailedSqlTransaction(s.raisedAt.value)) else Ok(s.result))
  }

  lemma LayersRunNext(tables: map<string, seq<string>>, layers: seq<LayerInfo>, k: nat, srid: int,
                      o: DdlOutcomes, guarded: bool)
    requires k < |layers|
    ensures LayersRun(tables, layers[..k + 1], srid, o, guarded)
            == LoopStep(LayersRun(tables, layers[..k], srid, o, guarded), layers[k], srid, o, guarded)
  {
    assert layers[..k + 1][..k] == layers[..k];
  }

  /** Once the loop has raised, the remaining layers change nothing. */
  lemma {:induction false} RunRaisedStays(tables: map<string, seq<string>>, layers: seq<LayerInfo>, j: nat,
                                          srid: int, o: DdlOutcomes, guarded: bool)
    requires j <= |layers| && LayersRun(tables, layers[..j], srid, o, guarded).raisedAt.Some?
    ensures LayersRun(tables, layers, srid, o, guarded) == LayersRun(tables, layers[..j], srid, o, guarded)
  {
    if j < |layers| {
      var q := layers[..|layers| - 1];
      assert q[..j] == layers[..j];
      RunRaisedStays(tables, q, j, srid, o, guarded);
    } else {
      assert layers[..j] == layers;
    }
  }

  lemma LayersStepNext(tables: map<string, seq<string>>, layers: seq<LayerInfo>, k: nat, srid: int, o: DdlOutcomes)
    requires k < |layers|
    ensures LayersStep(tables, layers[..k + 1], srid, o) ==
      var prev := LayersStep(tables, layers[..k], srid, o);
      LayerStep(prev.0, prev.1, layers[k], srid, o)
  {
    assert layers[..k + 1][..k] == layers[..k];
  }

  /**
   * The common-index loop: for each field the column query, then CREATE INDEX when the column
   * exists; a query in an aborted transaction raises and ends the loop.
   */
  method CommonIndexes(t: string, catalog: Catalog, o: DdlOutcomes) returns (n: nat, aborted: bool, raised: bool)
    requires t in catalog.tables
    ensures PassState(n, aborted, raised) == CommonPass(t, CommonIndexFields, catalog.tables[t], o.commonIndexOk)
  {
    n, aborted, raised := 0, false, false;
    var j := 0;
    while j < |CommonIndexFields|
      invariant 0 <= j <= |CommonIndexFields|
      invariant PassState(n, aborted, false) == CommonPass(t, CommonIndexFields[..j], catalog.tables[t], o.commonIndexOk)
    {
      assert CommonIndexFields[..j + 1][..j] == CommonIndexFields[..j];
      if aborted {
        raised := true;
        RaisedStays(t, CommonIndexFields, j + 1, catalog.tables[t], o.commonIndexOk);
        return;
      }
      var c := CommonIndexFields[j];
      if catalog.HasColumn(t, c) {
        if o.commonIndexOk(t, c) {
          n := n + 1;
        } else {
          aborted := true;
        }
      }
      j := j + 1;
    }
    assert CommonIndexFields[..|CommonIndexFields|] == CommonIndexFields;
  }

  /**
   * One layer: the entry for `info` appended to `res`, the table created when due, and whether
   * the layer's comment block left the transaction aborted.
   */
  method ClassifyLayer(info: LayerInfo, catalog: Catalog, srid: int, o: DdlOutcomes, res: SchemaResult)
    returns (result: SchemaResult, aborted: bool)
    modifies catalog
    ensures (catalog.tables, result) == LayerStep(old(catalog.tables), res, info, srid, o)
    ensures aborted == (|result.created| > |res.created| && CommentsAbort(info, o, false))
  {
    result, aborted := res, false;
    if info.failed {
      result := result.(skipped := result.skipped + [SkippedTable(info.layerName, None, AnalysisFailed)]);
      return;
    }
    var t := Lower(info.layerName);
    if catalog.HasTable(t) {
      result := result.(skipped := result.skipped + [SkippedTable(info.layerName, Some(t), AlreadyExists)]);
      return;
    }
    var cols := UnifiedColumns(info, srid);
    var geom := HasKnownGeometry(info.geometryType);
    if !o.createOk(t) {
      result := result.(errors := result.errors + [TableFailed(t)],
                        skipped := result.skipped + [SkippedTable(info.layerName, Some(t), CreateFailed)]);
      return;
    }
    catalog.CreateTable(t, ColumnNames(cols));
    if (geom && !o.geomIndexOk(t)) || !o.tileIndexOk(t) {
      result := result.(errors := result.errors + [TableFailed(t)],
                        skipped := result.skipped + [SkippedTable(info.layerName, Some(t), CreateFailed)]);
      return;
    }
    FoldIdempotent(info.layerName);
    assert Fold(t) == t && catalog.tables[t] == FoldAll(ColumnNames(cols));
    var common, commonAborted, raised := CommonIndexes(t, catalog, o);
    if raised {
      result := result.(errors := result.errors + [TableFailed(t)],
                        skipped := result.skipped + [SkippedTable(info.layerName, Some(t), CreateFailed)]);
      return;
    }
    CommonPassFacts(t, CommonIndexFields, FoldAll(ColumnNames(cols)), o.commonIndexOk);
    // The comment block, its failure swallowed: the geom COMMENT names the column whether the
    // table has it or not.
    GeomColumnPresent(info, srid);
    aborted := !o.commentOk(t) || (GeomCommented(info.geometryType) && !catalog.HasColumn(t, "geom"));
    var n := (if geom then 1 else 0) + 1 + common;
    result := result.(created := result.created + [CreatedTable(info.layerName, t, info.geometryType, |cols|, n)]);
  }

  /** The whole script step: install the extension, then classify and create layer by layer. */
  method CreateUnifiedTableSchema(layers: seq<LayerInfo>, catalog: Catalog, srid: int, o: DdlOutcomes)
    returns (r: Result<SchemaResult, SchemaRaise>)
    modifies catalog
    ensures (catalog.tables, r) == SchemaOf(old(catalog.tables), layers, srid, o)
  {
    if !o.extensionOk {
      return Ok(SchemaResult([], [], [ExtensionUnavailable]));
    }
    ghost var initial := catalog.tables;
    var result := SchemaResult([], [], []);
    var aborted := false;
    var k := 0;
    while k < |layers|
      invariant 0 <= k <= |layers|
      invariant LayersRun(initial, layers[..k], srid, o, false) == LoopState(catalog.tables, result, aborted, None)
    {
      LayersRunNext(initial, layers, k, srid, o, false);
      if !layers[k].failed && aborted {
        // SELECT EXISTS in the aborted transaction raises out of the function.
        RunRaisedStays(initial, layers, k + 1, srid, o, false);
        return Err(InFailedSqlTransaction(Lower(layers[k].layerName)));
      }
      var left;
      result, left := ClassifyLayer(layers[k], catalog, srid, o, result);
      if !layers[k].failed {
        aborted := left;
      }
      k := k + 1;
    }
    assert layers[..|layers|] == layers;
    r := Ok(result);
  }

  /** A created table has a geom column exactly when the layer's geometry type is known. */
  lemma GeomColumnPresent(info: LayerInfo, srid: int)
    ensures "geom" in FoldAll(ColumnNames(UnifiedColumns(info, srid))) <==> HasKnownGeometry(info.geometryType)
  {
    var cols := UnifiedColumns(info, srid);
    var names := FoldAll(ColumnNames(cols));
    UnifiedLayout(info, srid);
    var g := if HasKnownGeometry(info.geometryType) then 1 else 0;
    if g == 1 {
      FoldOfFolded("geom");
      assert names[1] == "geom";
    } else {
      forall k | 0 <= k < |names| ensures names[k] != "geom" {
        assert names[k] == Fold(cols[k].name);
        if 2 <= k < 2 + |info.fields| {
          FoldOfFolded(cols[k].name);
        } else {
          assert |names[k]| == |cols[k].name| != 4;
        }
      }
    }
  }

  // ---------------------------------------------------------------------------
  // Properties

  /** The tables_skipped entries whose table failed to be created. */
  function FailedSkips(s: seq<SkippedTable>): (r: nat)
    ensures r <= |s|
  {
    if |s| == 0 then 0 else FailedSkips(s[..|s| - 1]) + (if s[|s| - 1].reason == CreateFailed then 1 else 0)
  }

  function AnalysisSkips(s: seq<SkippedTable>): (r: nat)
    ensures r <= |s|
  {
    if |s| == 0 then 0 else AnalysisSkips(s[..|s| - 1]) + (if s[|s| - 1].reason == AnalysisFailed then 1 else 0)
  }

  function FailedLayers(layers: seq<LayerInfo>): (r: nat)
    ensures r <= |layers|
  {
    if |layers| == 0 then 0 else FailedLayers(layers[..|layers| - 1]) + (if layers[|layers| - 1].failed then 1 else 0)
  }

  /** The accounting a step keeps: one entry per layer, one error per failed creation, one analysis skip per failed analysis. */
  ghost predicate Accounted(layers: seq<LayerInfo>, res: SchemaResult) {
    && |res.created| + |res.skipped| == |layers|
    && |res.errors| == FailedSkips(res.skipped)
    && AnalysisSkips(res.skipped) == FailedLayers(layers)
  }

  lemma LayerStepAccounted(tables: map<string, seq<string>>, layers: seq<LayerInfo>, res: SchemaResult,
                           info: LayerInfo, srid: int, o: DdlOutcomes)
    requires Accounted(layers, res)
    ensures Accounted(layers + [info], LayerStep(tables, res, info, srid, o).1)
  {
    var ls := layers + [info];
    assert ls[..|ls| - 1] == layers;
    var r := LayerStep(tables, res, info, srid, o).1;
    if r.skipped != res.skipped {
      assert r.skipped[..|r.skipped| - 1] == res.skipped;
    }
  }

  /** Every layer ends in exactly one of tables_created and tables_skipped; every error is a skipped table. */
  lemma {:induction false} EveryLayerClassified(tables: map<string, seq<string>>, layers: seq<LayerInfo>,
                                                srid: int, o: DdlOutcomes)
    ensures Accounted(layers, LayersStep(tables, layers, srid, o).1)
  {
    if |layers| > 0 {
      var init := layers[..|layers| - 1];
      EveryLayerClassified(tables, init, srid, o);
      var prev := LayersStep(tables, init, srid, o);
      LayerStepAccounted(prev.0, init, prev.1, layers[|layers| - 1], srid, o);
      assert init + [layers[|layers| - 1]] == layers;
    }
  }

  /** With the extension installed, a run that returns classifies every layer once. */
  lemma SchemaClassifiesLayers(tables: map<string, seq<string>>, layers: seq<LayerInfo>, srid: int, o: DdlOutcomes)
    requires o.extensionOk
    ensures var r := SchemaOf(tables, layers, srid, o).1;
      r.Ok? ==>
        && |r.value.created| + |r.value.skipped| == |layers|
        && |r.value.errors| == FailedSkips(r.value.skipped)
        && AnalysisSkips(r.value.skipped) == FailedLayers(layers)
  {
    RunFollowsFold(tables, layers, srid, o, false);
    EveryLayerClassified(tables, layers, srid, o);
  }

  /** Without the extension, nothing is created or classified and one error is reported. */
  lemma ExtensionUnavailableStopsAll(tables: map<string, seq<string>>, layers: seq<LayerInfo>, srid: int, o: DdlOutcomes)
    requires !o.extensionOk
    ensures SchemaOf(tables, layers, srid, o) == (tables, Ok(SchemaResult([], [], [ExtensionUnavailable])))
  {
  }

  /**
   * The loop follows the layer fold: a run that does not raise ends as the fold of all layers;
   * one that raises stops at an analysed layer, named in the exception, with the catalog and
   * the result the fold gives for the layers before it.
   */
  lemma {:induction false} RunFollowsFold(tables: map<string, seq<string>>, layers: seq<LayerInfo>, srid: int,
                                          o: DdlOutcomes, guarded: bool)
    ensures var s := LayersRun(tables, layers, srid, o, guarded);
      && (s.raisedAt.None? ==> (s.tables, s.result) == LayersStep(tables, layers, srid, o))
      && (s.raisedAt.Some? ==>
            exists j :: 0 <= j < |layers| && !layers[j].failed && s.raisedAt.value == Lower(layers[j].layerName)
                        && (s.tables, s.result) == LayersStep(tables, layers[..j], srid, o))
  {
    if |layers| > 0 {
      var q := layers[..|layers| - 1];
      RunFollowsFold(tables, q, srid, o, guarded);
      var p := LayersRun(tables, q, srid, o, guarded);
      if p.raisedAt.Some? {
        var j :| 0 <= j < |q| && !q[j].failed && p.raisedAt.value == Lower(q[j].layerName)
                 && (p.tables, p.result) == LayersStep(tables, q[..j], srid, o);
        assert q[..j] == layers[..j];
      }
    }
  }

  /** For each layer, whether it is created after the fold of the layers before it and leaves the transaction aborted. */
  ghost function AbortFlags(tables: map<string, seq<string>>, layers: seq<LayerInfo>, srid: int,
                            o: DdlOutcomes, guarded: bool): (r: seq<bool>)
    ensures |r| == |layers|
  {
    if |layers| == 0 then []
    else
      var q := layers[..|layers| - 1];
      var prev := LayersStep(tables, q, srid, o);
      AbortFlags(tables, q, srid, o, guarded) + [LeavesAborted(prev.0, prev.1, layers[|layers| - 1], srid, o, guarded)]
  }

  function FailedFlags(layers: seq<LayerInfo>): (r: seq<bool>)
    ensures |r| == |layers|
    ensures forall i :: 0 <= i < |layers| ==> r[i] == layers[i].failed
  {
    seq(|layers|, i requires 0 <= i < |layers| => layers[i].failed)
  }

  /** Some position is aborting and a later one is not failed. */
  predicate RaisesIn(aborts: seq<bool>, failed: seq<bool>)
    requires |aborts| == |failed|
  {
    exists i, j :: 0 <= i < j < |aborts| && aborts[i] && !failed[j]
  }

  /** Some position is aborting and every later one is failed. */
  predicate PendingIn(aborts: seq<bool>, failed: seq<bool>)
    requires |aborts| == |failed|
  {
    exists i :: 0 <= i < |aborts| && aborts[i] && forall m :: i < m < |aborts| ==> failed[m]
  }

  /** How one more position changes RaisesIn and PendingIn. */
  lemma SnocFlags(aborts: seq<bool>, failed: seq<bool>, b: bool, f: bool)
    requires |aborts| == |failed|
    ensures RaisesIn(aborts + [b], failed + [f]) <==> RaisesIn(aborts, failed) || (!f && PendingIn(aborts, failed))
    ensures PendingIn(aborts + [b], failed + [f]) <==> b || (f && PendingIn(aborts, failed))
  {
    var n := |aborts|;
    var a2, f2 := aborts + [b], failed + [f];
    assert forall k :: 0 <= k < n ==> a2[k] == aborts[k] && f2[k] == failed[k];
    if RaisesIn(a2, f2) && !RaisesIn(aborts, failed) {
      var i, j :| 0 <= i < j < |a2| && a2[i] && !f2[j];
      assert j == n;
      assert forall m :: i < m < n ==> failed[m];
    }
    if !f && PendingIn(aborts, failed) {
      var i :| 0 <= i < n && aborts[i] && forall m :: i < m < n ==> failed[m];
      assert a2[i] && !f2[n];
    }
    if RaisesIn(aborts, failed) {
      var i, j :| 0 <= i < j < n && aborts[i] && !failed[j];
      assert a2[i] && !f2[j];
    }
    if PendingIn(a2, f2) && !b {
      var i :| 0 <= i < |a2| && a2[i] && forall m :: i < m < |a2| ==> f2[m];
      assert i < n && f2[n];
      assert forall m :: i < m < n ==> failed[m];
    }
    if f && PendingIn(aborts, failed) {
      var i :| 0 <= i < n && aborts[i] && forall m :: i < m < n ==> failed[m];
      assert a2[i] && forall m :: i < m < |a2| ==> f2[m];
    }
    if b {
      assert a2[n];
    }
  }

  /**
   * The loop raises exactly when a layer leaves the transaction aborted and a later layer is
   * analysed; a loop that does not raise ends aborted exactly when such a layer is followed
   * only by layers with an analysis error.
   */
  lemma {:induction false} RunRaisesIff(tables: map<string, seq<string>>, layers: seq<LayerInfo>, srid: int,
                                        o: DdlOutcomes, guarded: bool)
    ensures var s := LayersRun(tables, layers, srid, o, guarded);
      var ab := AbortFlags(tables, layers, srid, o, guarded);
      var fl := FailedFlags(layers);
      && (s.raisedAt.Some? <==> RaisesIn(ab, fl))
      && (s.raisedAt.None? ==> (s.aborted <==> PendingIn(ab, fl)))
  {
    if |layers| > 0 {
      var n := |layers| - 1;
      var q := layers[..n];
      var x := layers[n];
      RunRaisesIff(tables, q, srid, o, guarded);
      RunFollowsFold(tables, q, srid, o, guarded);
      var prev := LayersStep(tables, q, srid, o);
      var b := LeavesAborted(prev.0, prev.1, x, srid, o, guarded);
      assert FailedFlags(layers) == FailedFlags(q) + [x.failed];
      SnocFlags(AbortFlags(tables, q, srid, o, guarded), FailedFlags(q), b, x.failed);
      if x.failed {
        assert !b;
      }
    }
  }

  /** The flag of layer i: created after the fold of the layers before it, with its comment block failing. */
  lemma {:induction false} AbortFlagsAt(tables: map<string, seq<string>>, layers: seq<LayerInfo>, srid: int,
                                        o: DdlOutcomes, guarded: bool, i: nat)
    requires i < |layers|
    ensures var prev := LayersStep(tables, layers[..i], srid, o);
      AbortFlags(tables, layers, srid, o, guarded)[i] == LeavesAborted(prev.0, prev.1, layers[i], srid, o, guarded)
  {
    var q := layers[..|layers| - 1];
    if i < |q| {
      AbortFlagsAt(tables, q, srid, o, guarded, i);
      assert q[..i] == layers[..i];
    }
  }

  /** Layer i is created, after the fold of the layers before it. */
  ghost predicate CreatedAt(tables: map<string, seq<string>>, layers: seq<LayerInfo>, i: int, srid: int, o: DdlOutcomes) {
    && 0 <= i < |layers|
    && var prev := LayersStep(tables, layers[..i], srid, o);
       Creates(prev.0, prev.1, layers[i], srid, o)
  }

  /**
   * The run raises exactly when, with the extension installed, a created layer's comment block
   * fails (a COMMENT refused, or, without the guard, the geom COMMENT of a layer whose geometry
   * type is "None") and a later layer is analysed.
   */
  lemma SchemaRunRaisesIff(tables: map<string, seq<string>>, layers: seq<LayerInfo>, srid: int,
                           o: DdlOutcomes, guarded: bool)
    ensures SchemaRunOf(tables, layers, srid, o, guarded).1.Err? <==>
      && o.extensionOk
      && exists i, j :: 0 <= i < j < |layers| && CreatedAt(tables, layers, i, srid, o)
                        && (!o.commentOk(Lower(layers[i].layerName)) || (!guarded && layers[i].geometryType == Some("None")))
                        && !layers[j].failed
  {
    if o.extensionOk {
      RunRaisesIff(tables, layers, srid, o, guarded);
      var ab := AbortFlags(tables, layers, srid, o, guarded);
      var fl := FailedFlags(layers);
      forall i | 0 <= i < |layers|
        ensures ab[i] <==> CreatedAt(tables, layers, i, srid, o)
                           && (!o.commentOk(Lower(layers[i].layerName)) || (!guarded && layers[i].geometryType == Some("None")))
      {
        AbortFlagsAt(tables, layers, srid, o, guarded, i);
      }
    }
  }

  /**
   * A run that returns gives the fold of all layers; one that raises names an analysed layer
   * and leaves the catalog the fold of the layers before it made.
   */
  lemma SchemaRunFollowsFold(tables: map<string, seq<string>>, layers: seq<LayerInfo>, srid: int,
                             o: DdlOutcomes, guarded: bool)
    requires o.extensionOk
    ensures var (tables', r) := SchemaRunOf(tables, layers, srid, o, guarded);
      && (r.Ok? ==> (tables', r.value) == LayersStep(tables, layers, srid, o))
      && (r.Err? ==> exists j :: 0 <= j < |layers| && !layers[j].failed && r.error.table == Lower(layers[j].layerName)
                               && tables' == LayersStep(tables, layers[..j], srid, o).0)
  {
    RunFollowsFold(tables, layers, srid, o, guarded);
  }

  /**
   * As written: a created layer whose geometry type is "None", followed by an analysed layer,
   * makes the function raise at that layer's existence query, the first table already committed.
   */
  lemma NoneGeometryThenAnalysedRaises(tables: map<string, seq<string>>, a: LayerInfo, b: LayerInfo,
                                       srid: int, o: DdlOutcomes)
    requires o.extensionOk && IndexesReached(tables, a, o)
    requires forall c :: o.commonIndexOk(Lower(a.layerName), c)
    requires a.geometryType == Some("None") && !b.failed
    ensures SchemaOf(tables, [a, b], srid, o)
            == (tables[Lower(a.layerName) := FoldAll(ColumnNames(UnifiedColumns(a, srid)))],
                Err(InFailedSqlTransaction(Lower(b.layerName))))
  {
    var t := Lower(a.layerName);
    FoldIdempotent(a.layerName);
    CommonPassFacts(t, CommonIndexFields, FoldAll(ColumnNames(UnifiedColumns(a, srid))), o.commonIndexOk);
    var columns := FoldAll(ColumnNames(UnifiedColumns(a, srid)));
    assert !IndexFails(t, CommonIndexFields[0], columns, o.commonIndexOk);
    assert !CommonPass(t, CommonIndexFields, columns, o.commonIndexOk).raised;
    var empty := SchemaResult([], [], []);
    var st := LayerStep(tables, empty, a, srid, o);
    assert st.0 == tables[t := columns];
    assert |st.1.created| == 1;
    var layers := [a, b];
    assert layers[..1] == [a] && layers[..1][..0] == [];
    var s0 := LayersRun(tables, layers[..1][..0], srid, o, false);
    assert s0 == LoopState(tables, empty, false, None);
    var s1 := LayersRun(tables, layers[..1], srid, o, false);
    assert s1 == LoopStep(s0, a, srid, o, false);
    assert s1 == LoopState(st.0, st.1, true, None);
  }

  /**
   * Corrected: with the geom COMMENT guarded like the column and every COMMENT accepted, the run
   * never raises and returns the fold of all layers.
   */
  lemma GuardedCommentsNeverRaise(tables: map<string, seq<string>>, layers: seq<LayerInfo>, srid: int, o: DdlOutcomes)
    requires o.extensionOk && forall t :: o.commentOk(t)
    ensures var f := LayersStep(tables, layers, srid, o);
      SchemaCorrectedOf(tables, layers, srid, o) == (f.0, Ok(f.1))
  {
    SchemaRunRaisesIff(tables, layers, srid, o, true);
    SchemaRunFollowsFold(tables, layers, srid, o, true);
  }

  /** Tables that exist are never altered or dropped; tables are only ever added. */
  lemma {:induction false} ExistingTablesKept(tables: map<string, seq<string>>, layers: seq<LayerInfo>,
                                              srid: int, o: DdlOutcomes)
    ensures var after := LayersStep(tables, layers, srid, o).0;
      forall t :: t in tables ==> t in after && after[t] == tables[t]
  {
    if |layers| > 0 {
      var init := layers[..|layers| - 1];
      ExistingTablesKept(tables, init, srid, o);
      var prev := LayersStep(tables, init, srid, o);
      var info := layers[|layers| - 1];
      var after := LayersStep(tables, layers, srid, o).0;
      forall t | t in tables ensures t in after && after[t] == tables[t] {
        assert t in prev.0 && prev.0[t] == tables[t];
        if !info.failed && Lower(info.layerName) !in prev.0 && o.createOk(Lower(info.layerName)) {
          assert Fold(Lower(info.layerName)) == Lower(info.layerName);
        }
      }
    }
  }

  /** A layer whose analysis failed, or whose table already exists, adds no table. */
  lemma SkippedLayerAddsNothing(tables: map<string, seq<string>>, res: SchemaResult, info: LayerInfo,
                               srid: int, o: DdlOutcomes)
    requires info.failed || Lower(info.layerName) in tables
    ensures LayerStep(tables, res, info, srid, o).0 == tables
    ensures LayerStep(tables, res, info, srid, o).1.created == res.created
    ensures |LayerStep(tables, res, info, srid, o).1.skipped| == |res.skipped| + 1
  {
  }

  /** A created table holds the unified columns, and its record counts them and at most seven indexes. */
  lemma CreatedTableRecord(tables: map<string, seq<string>>, res: SchemaResult, info: LayerInfo,
                           srid: int, o: DdlOutcomes)
    requires |LayerStep(tables, res, info, srid, o).1.created| > |res.created|
    ensures var (tables', res') := LayerStep(tables, res, info, srid, o);
      var t := Lower(info.layerName);
      && !info.failed && t !in tables
      && tables' == tables[t := FoldAll(ColumnNames(UnifiedColumns(info, srid)))]
      && res'.created == res.created + [res'.created[|res.created|]]
      && res'.created[|res.created|].columns == |UnifiedColumns(info, srid)|
      && res'.created[|res.created|].indexes <= 2 + |CommonIndexFields|
      && res'.errors == res.errors && res'.skipped == res.skipped
  {
    FoldIdempotent(info.layerName);
  }

  /** The layers whose table is created and whose geom and tile_code indexes succeed. */
  predicate IndexesReached(tables: map<string, seq<string>>, info: LayerInfo, o: DdlOutcomes) {
    var t := Lower(info.layerName);
    && !info.failed && t !in tables && o.createOk(t)
    && (HasKnownGeometry(info.geometryType) ==> o.geomIndexOk(t)) && o.tileIndexOk(t)
  }

  /**
   * As written: a layer whose table was created and whose "gb" index fails ends as an error and a
   * CreateFailed skip, and its table stays in the catalog. (The same holds for name, class and type.)
   */
  lemma FailedCommonIndexSkipsLayer(tables: map<string, seq<string>>, res: SchemaResult, info: LayerInfo,
                                    srid: int, o: DdlOutcomes)
    requires IndexesReached(tables, info, o)
    requires "gb" in FoldAll(ColumnNames(UnifiedColumns(info, srid))) && !o.commonIndexOk(Lower(info.layerName), "gb")
    ensures var (tables', res') := LayerStep(tables, res, info, srid, o);
      var t := Lower(info.layerName);
      && t in tables' && tables'[t] == FoldAll(ColumnNames(UnifiedColumns(info, srid)))
      && res'.created == res.created
      && res'.skipped == res.skipped + [SkippedTable(info.layerName, Some(t), CreateFailed)]
      && res'.errors == res.errors + [TableFailed(t)]
  {
    var t := Lower(info.layerName);
    FoldIdempotent(info.layerName);
    CommonPassFacts(t, CommonIndexFields, FoldAll(ColumnNames(UnifiedColumns(info, srid))), o.commonIndexOk);
    assert IndexFails(t, CommonIndexFields[0], FoldAll(ColumnNames(UnifiedColumns(info, srid))), o.commonIndexOk);
  }

  /**
   * With the common indexes best-effort, a layer whose table and geom and tile_code indexes are
   * created is reported created, with the indexes that succeeded counted.
   */
  lemma BestEffortCreates(tables: map<string, seq<string>>, res: SchemaResult, info: LayerInfo,
                          srid: int, o: DdlOutcomes)
    requires IndexesReached(tables, info, o)
    ensures var (tables', res') := LayerStepBestEffort(tables, res, info, srid, o);
      var t := Lower(info.layerName);
      var columns := FoldAll(ColumnNames(UnifiedColumns(info, srid)));
      && tables' == tables[t := columns]
      && res'.skipped == res.skipped && res'.errors == res.errors
      && res'.created == res.created + [CreatedTable(info.layerName, t, info.geometryType, |UnifiedColumns(info, srid)|,
           (if HasKnownGeometry(info.geometryType) then 1 else 0) + 1 + CommonIndexCount(t, CommonIndexFields, columns, o.commonIndexOk))]
  {
    FoldIdempotent(info.layerName);
  }

  /** The step as written agrees with the best-effort one exactly when no field before the last has a failing index. */
  lemma AsWrittenAgreesUnlessAborted(tables: map<string, seq<string>>, res: SchemaResult, info: LayerInfo,
                                     srid: int, o: DdlOutcomes)
    requires IndexesReached(tables, info, o)
    ensures var t := Lower(info.layerName);
      var columns := FoldAll(ColumnNames(UnifiedColumns(info, srid)));
      (forall i :: 0 <= i < |CommonIndexFields| - 1 ==> !IndexFails(t, CommonIndexFields[i], columns, o.commonIndexOk))
      <==> LayerStep(tables, res, info, srid, o) == LayerStepBestEffort(tables, res, info, srid, o)
  {
    var t := Lower(info.layerName);
    var columns := FoldAll(ColumnNames(UnifiedColumns(info, srid)));
    FoldIdempotent(info.layerName);
    assert Fold(t) == t;
    var tables' := tables[t := columns];
    assert tables'[Fold(t)] == columns;
    CommonPassFacts(t, CommonIndexFields, columns, o.commonIndexOk);
    var best := LayerStepBestEffort(tables, res, info, srid, o);
    assert |best.1.created| == |res.created| + 1;
    if CommonPass(t, CommonIndexFields, columns, o.commonIndexOk).raised {
      assert |LayerStep(tables, res, info, srid, o).1.created| == |res.created|;
    }
  }

  /** The unified column order, the count 4 + fields (+1 with geometry), and no constraint on any data column. */
  lemma UnifiedLayout(info: LayerInfo, srid: int)
    ensures var cols := UnifiedColumns(info, srid);
      var g := if HasKnownGeometry(info.geometryType) then 1 else 0;
      var n := |info.fields|;
      && |cols| == 4 + n + g
      && cols[0].name == "id" && cols[0].sqlType == "BIGSERIAL"
      && (g == 1 ==> cols[1].name == "geom" && cols[1].sqlType == "GEOMETRY(GEOMETRY, " + IntToString(srid) + ")")
      && cols[1 + g] == TileCodeColumn
      && (forall i :: 0 <= i < n ==>
            && cols[2 + g + i].name == DesignColumnName(info.fields[i].0)
            && cols[2 + g + i].name !in ReservedColumns
            && cols[2 + g + i].constraints == [])
      && cols[2 + g + n].name == "created_at" && cols[3 + g + n].name == "updated_at"
  {
  }
}
