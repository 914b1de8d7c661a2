// The three-step setup of scripts/setup_unified_database.py: parse a reference tile, create the
// unified tables from its analysis, then import every geodatabase of a directory; full_setup
// chains the steps and picks the analysis file when parsing is skipped.

module SetupPipeline {
  import opened Wrappers
  import opened Strings
  import opened Identifiers
  import opened LayerProfile
  import opened Database
  import opened UnifiedSchema
  import opened TileImport
  import opened MapSum

  /** The exceptions the steps raise. */
  datatype SetupError =
    | NoReferenceGdb              // no reference geodatabase given or found
    | ParseFailed                 // parse_tile_completely returned nothing
    | AnalysisMissing(file: string)  // the analysis file step1 looks for was not written
    | NoAnalysisFound             // skip_parse and no *_complete_analysis.json at all
    | AnalysisNotFound(file: string) // step2 on a file that does not exist
    | NoGdbFiles                  // step3 on a directory without *.gdb
    | SchemaRaised(table: string) // create_unified_table_schema raised InFailedSqlTransaction

  const AnalysisSuffix: string := "_complete_analysis.json"

  function AnalysisFileName(tile: string): (r: string)
    ensures |r| == |tile| + |AnalysisSuffix| && r[..|tile|] == tile && EndsWith(r, AnalysisSuffix)
  {
    tile + AnalysisSuffix
  }

  // ---------------------------------------------------------------------------
  // Paths

  /** The position of the last '.' of `s`, or -1. */
  function LastDot(s: string): (r: int)
    ensures -1 <= r < |s|
    ensures r >= 0 ==> s[r] == '.'
    ensures forall i :: r < i < |s| ==> s[i] != '.'
  {
    if |s| == 0 then -1
    else if s[|s| - 1] == '.' then |s| - 1
    else LastDot(s[..|s| - 1])
  }

  /** Path(name).stem of a final path component: the last suffix removed, unless the dot leads or ends it. */
  function Stem(name: string): (r: string)
    ensures |r| <= |name| && r == name[..|r|]
  {
    var d := LastDot(name);
    if 0 < d < |name| - 1 then name[..d] else name
  }

  // ---------------------------------------------------------------------------
  // step1_parse_tile

  /** The reference tile derived in step1: the first three characters after F or G, with no digit check. */
  function ReferenceTile(name: string): (r: string)
    ensures |r| <= |name| && r == name[..|r|]
    ensures r != name <==> |name| > 3 && (name[0] == 'F' || name[0] == 'G')
  {
    if |name| >= 3 && (name[0] == 'F' || name[0] == 'G') then name[..3] else name
  }

  /** The file parse_tile_completely writes: named after the stem with ".gdb" removed. */
  function ParseOutput(stem: string): string {
    AnalysisFileName(ReplaceAll(stem, ".gdb", ""))
  }

  /**
   * step1 as written: after a successful parse the file named after the reference tile must exist
   * among the files already in the output directory and the one the parse wrote.
   */
  function Step1AsWritten(stem: string, referenceTile: Option<string>, parsed: bool,
                          files: seq<string>): Result<string, SetupError>
  {
    var name := ReplaceAll(stem, ".gdb", "");
    var tile := if referenceTile.Some? && referenceTile.value != "" then referenceTile.value
                else ReferenceTile(name);
    if !parsed then Err(ParseFailed)
    else
      var file := AnalysisFileName(tile);
      if file in files + [ParseOutput(stem)] then Ok(file) else Err(AnalysisMissing(file))
  }

  /** step1 as intended: the analysis file is the one the parse wrote. */
  function Step1(stem: string, parsed: bool): (r: Result<string, SetupError>)
    ensures r.Ok? <==> parsed
    ensures r.Ok? ==> r.value == ParseOutput(stem)
  {
    if !parsed then Err(ParseFailed) else Ok(ParseOutput(stem))
  }

  lemma AppendCancel(a: string, b: string, s: string)
    requires a + s == b + s
    ensures a == b
  {
    assert |a| == |b|;
    assert a == (a + s)[..|a|];
    assert b == (b + s)[..|b|];
  }

  /**
   * As written, in an output directory without analysis files and with the default reference
   * tile, step1 fails exactly for names longer than three characters that begin with F or G.
   */
  lemma Step1AsWrittenFailsIff(stem: string)
    ensures var name := ReplaceAll(stem, ".gdb", "");
      Step1AsWritten(stem, None, true, []).Err?
      <==> |name| > 3 && (name[0] == 'F' || name[0] == 'G')
  {
    var name := ReplaceAll(stem, ".gdb", "");
    if AnalysisFileName(ReferenceTile(name)) == ParseOutput(stem) {
      AppendCancel(ReferenceTile(name), name, AnalysisSuffix);
    }
  }

  /** A dot-free stem of more than three characters beginning with F or G: the parse's file is never the one looked for. */
  lemma Step1AsWrittenMisses(stem: string)
    requires '.' !in stem && |stem| > 3 && (stem[0] == 'F' || stem[0] == 'G')
    ensures Step1AsWritten(stem, None, true, []) == Err(AnalysisMissing(AnalysisFileName(stem[..3])))
    ensures Step1(stem, true) == Ok(AnalysisFileName(stem))
  {
    ReplaceAllAbsent(stem, ".gdb", "");
    Step1AsWrittenFailsIff(stem);
  }

  /** The geodatabase F49_2021.gdb: the parse writes F49_2021_complete_analysis.json, step1 looks for F49's. */
  lemma Step1AsWrittenExample()
    ensures Step1AsWritten("F49_2021", None, true, []) == Err(AnalysisMissing(AnalysisFileName("F49")))
    ensures Step1("F49_2021", true) == Ok(AnalysisFileName("F49_2021"))
  {
    var stem := "F49_2021";
    assert forall i :: 0 <= i < |stem| ==> stem[i] != '.';
    assert stem[..3] == "F49";
    Step1AsWrittenMisses(stem);
  }

  // ---------------------------------------------------------------------------
  // step2_create_schema

  /** The tables a forced step2 drops: the lower-cased name of every layer whose analysis succeeded. */
  function DropList(layers: seq<LayerInfo>): (r: seq<string>)
    ensures |r| <= |layers|
    ensures forall t :: t in r <==> exists i :: 0 <= i < |layers| && !layers[i].failed && Lower(layers[i].layerName) == t
  {
    if |layers| == 0 then []
    else
      var p := layers[..|layers| - 1];
      var last := layers[|layers| - 1];
      var r := DropList(p) + (if last.failed then [] else [Lower(last.layerName)]);
      assert forall i :: 0 <= i < |p| ==> p[i] == layers[i];
      r
  }

  /** The catalog after DROP TABLE IF EXISTS of each name in order. */
  function Dropped(tables: map<string, seq<string>>, drop: seq<string>): (r: map<string, seq<string>>)
    ensures forall t :: t in r <==> t in tables && forall j :: 0 <= j < |drop| ==> t != Fold(drop[j])
    ensures forall t :: t in r ==> r[t] == tables[t]
  {
    if |drop| == 0 then tables
    else Dropped(tables, drop[..|drop| - 1]) - {Fold(drop[|drop| - 1])}
  }

  /**
   * step2: the new catalog and the returned flag, true exactly when some table was created; the
   * exception of create_unified_table_schema passes through the `finally`.
   */
  function Step2Of(tables: map<string, seq<string>>, analysis: Option<seq<LayerInfo>>, file: string,
                   srid: int, force: bool, o: DdlOutcomes): (map<string, seq<string>>, Result<bool, SetupError>)
  {
    if analysis.None? then (tables, Err(AnalysisNotFound(file)))
    else
      var layers := analysis.value;
      var start := if force then Dropped(tables, DropList(layers)) else tables;
      var (tables', res) := SchemaOf(start, layers, srid, o);
      (tables', if res.Err? then Err(SchemaRaised(res.error.table)) else Ok(|res.value.created| > 0))
  }

  lemma DropListNext(layers: seq<LayerInfo>, k: nat)
    requires k < |layers|
    ensures DropList(layers[..k + 1]) == DropList(layers[..k]) + (if layers[k].failed then [] else [Lower(layers[k].layerName)])
  {
    assert layers[..k + 1][..k] == layers[..k];
  }

  /** The drop list of step2, gathered layer by layer. */
  method TablesToDrop(layers: seq<LayerInfo>) returns (drop: seq<string>)
    ensures drop == DropList(layers)
  {
    drop := [];
    var k := 0;
    while k < |layers|
      invariant 0 <= k <= |layers|
      invariant drop == DropList(layers[..k])
    {
      DropListNext(layers, k);
      if !layers[k].failed {
        drop := drop + [Lower(layers[k].layerName)];
      }
      k := k + 1;
    }
    assert layers[..|layers|] == layers;
  }

  /** step2_create_schema on the analysis read from `file` (None: the file does not exist). */
  method Step2CreateSchema(catalog: Catalog, analysis: Option<seq<LayerInfo>>, file: string, srid: int,
                           force: bool, o: DdlOutcomes) returns (r: Result<bool, SetupError>)
    modifies catalog
    ensures (catalog.tables, r) == Step2Of(old(catalog.tables), analysis, file, srid, force, o)
  {
    if analysis.None? {
      return Err(AnalysisNotFound(file));
    }
    var layers := analysis.value;
    if force {
      var drop := TablesToDrop(layers);
      ghost var initial := catalog.tables;
      var j := 0;
      while j < |drop|
        invariant 0 <= j <= |drop|
        invariant catalog.tables == Dropped(initial, drop[..j])
      {
        assert drop[..j + 1][..j] == drop[..j];
        catalog.DropTable(drop[j]);
        j := j + 1;
      }
      assert drop[..|drop|] == drop;
    }
    var res := CreateUnifiedTableSchema(layers, catalog, srid, o);
    if res.Err? {
      return Err(SchemaRaised(res.error.table));
    }
    r := Ok(|res.value.created| > 0);
  }

  /** Every statement the database is asked succeeds. */
  ghost predicate AllDdlOk(o: DdlOutcomes) {
    && o.extensionOk
    && (forall t :: o.createOk(t))
    && (forall t :: o.geomIndexOk(t))
    && (forall t :: o.tileIndexOk(t))
    && (forall t, c :: o.commonIndexOk(t, c))
    && (forall t :: o.commentOk(t))
  }

  /** A forced drop removes the table of every analysed layer and keeps every other table. */
  lemma ForcedDropClears(tables: map<string, seq<string>>, layers: seq<LayerInfo>)
    ensures var d := Dropped(tables, DropList(layers));
      && (forall i :: 0 <= i < |layers| && !layers[i].failed ==> Lower(layers[i].layerName) !in d)
      && (forall t :: t in tables && t !in DropList(layers) ==> t in d && d[t] == tables[t])
  {
    var drop := DropList(layers);
    var d := Dropped(tables, drop);
    forall i | 0 <= i < |layers| && !layers[i].failed ensures Lower(layers[i].layerName) !in d {
      var t := Lower(layers[i].layerName);
      assert t in drop;
      var j :| 0 <= j < |drop| && drop[j] == t;
      FoldIdempotent(layers[i].layerName);
    }
    forall j | 0 <= j < |drop| ensures Fold(drop[j]) == drop[j] {
      assert drop[j] in drop;
      var i :| 0 <= i < |layers| && !layers[i].failed && Lower(layers[i].layerName) == drop[j];
      FoldIdempotent(layers[i].layerName);
    }
  }

  lemma LayerStepKeepsCreated(tables: map<string, seq<string>>, res: SchemaResult, info: LayerInfo,
                              srid: int, o: DdlOutcomes)
    ensures |LayerStep(tables, res, info, srid, o).1.created| >= |res.created|
    ensures info.failed ==>
      LayerStep(tables, res, info, srid, o)
      == (tables, res.(skipped := res.skipped + [SkippedTable(info.layerName, None, AnalysisFailed)]))
    ensures AllDdlOk(o) && !info.failed && Lower(info.layerName) !in tables ==>
      |LayerStep(tables, res, info, srid, o).1.created| == |res.created| + 1
  {
    if AllDdlOk(o) && !info.failed && Lower(info.layerName) !in tables {
      var t := Lower(info.layerName);
      FoldIdempotent(info.layerName);
      CommonPassFacts(t, CommonIndexFields, FoldAll(ColumnNames(UnifiedColumns(info, srid))), o.commonIndexOk);
    }
  }

  /**
   * Against a catalog holding none of the analysed layers' tables and with every statement
   * succeeding, some table is created as soon as one layer was analysed; with none analysed,
   * nothing changes.
   */
  lemma {:induction false} SomeTableCreated(tables: map<string, seq<string>>, layers: seq<LayerInfo>,
                                            srid: int, o: DdlOutcomes)
    requires AllDdlOk(o)
    requires forall i :: 0 <= i < |layers| && !layers[i].failed ==> Lower(layers[i].layerName) !in tables
    ensures var (tables', res) := LayersStep(tables, layers, srid, o);
      && ((exists i :: 0 <= i < |layers| && !layers[i].failed) ==> |res.created| > 0)
      && ((forall i :: 0 <= i < |layers| ==> layers[i].failed) ==> tables' == tables && res.created == [])
  {
    if |layers| > 0 {
      var p := layers[..|layers| - 1];
      var last := layers[|layers| - 1];
      assert forall i :: 0 <= i < |p| ==> p[i] == layers[i];
      SomeTableCreated(tables, p, srid, o);
      var prev := LayersStep(tables, p, srid, o);
      LayerStepKeepsCreated(prev.0, prev.1, last, srid, o);
      if exists i :: 0 <= i < |layers| && !layers[i].failed {
        if !last.failed {
          if forall i :: 0 <= i < |p| ==> p[i].failed {
            assert Lower(last.layerName) !in prev.0;
          }
        } else {
          var i :| 0 <= i < |layers| && !layers[i].failed;
          assert i < |p| && !p[i].failed;
        }
      }
    }
  }

  /**
   * Step2 with no analysed layer returns False. With force and every statement accepted it
   * raises exactly when an analysed layer whose geometry type is "None" (the first of its table
   * name) is followed by another analysed layer; when it returns, it returns True exactly when
   * some layer was analysed.
   */
  lemma Step2Outcome(tables: map<string, seq<string>>, layers: seq<LayerInfo>, file: string, srid: int,
                     force: bool, o: DdlOutcomes)
    ensures (forall i :: 0 <= i < |layers| ==> layers[i].failed) ==>
      Step2Of(tables, Some(layers), file, srid, force, o).1 == Ok(false)
    ensures force && AllDdlOk(o) ==>
      var r := Step2Of(tables, Some(layers), file, srid, force, o).1;
      && (r.Ok? ==> (r.value <==> exists i :: 0 <= i < |layers| && !layers[i].failed))
      && (r.Err? <==> exists i, j :: 0 <= i < j < |layers| && !layers[i].failed && FirstOfName(layers, i)
                                   && layers[i].geometryType == Some("None") && !layers[j].failed)
  {
    var start := if force then Dropped(tables, DropList(layers)) else tables;
    if forall i :: 0 <= i < |layers| ==> layers[i].failed {
      NothingCreated(start, layers, srid, o);
    }
    if force && AllDdlOk(o) {
      ForcedDropClears(tables, layers);
      SomeTableCreated(start, layers, srid, o);
      SchemaRunFollowsFold(start, layers, srid, o, false);
      SchemaRunRaisesIff(start, layers, srid, o, false);
      forall i | 0 <= i < |layers|
        ensures CreatedAt(start, layers, i, srid, o) <==> !layers[i].failed && FirstOfName(layers, i)
      {
        CreatedUnderAllOk(start, layers, srid, o, i);
      }
    }
  }

  /** No analysed layer before layer i has its lower-cased name. */
  ghost predicate FirstOfName(layers: seq<LayerInfo>, i: int) {
    0 <= i < |layers| &&
    forall m :: 0 <= m < i && !layers[m].failed ==> Lower(layers[m].layerName) != Lower(layers[i].layerName)
  }

  /** With every CREATE TABLE accepted, the fold's catalog adds exactly the names of the analysed layers. */
  lemma {:induction false} FoldTables(tables: map<string, seq<string>>, layers: seq<LayerInfo>, srid: int, o: DdlOutcomes)
    requires forall t :: o.createOk(t)
    ensures forall t :: t in LayersStep(tables, layers, srid, o).0 <==>
      t in tables || exists m :: 0 <= m < |layers| && !layers[m].failed && Lower(layers[m].layerName) == t
  {
    if |layers| > 0 {
      var q := layers[..|layers| - 1];
      var x := layers[|layers| - 1];
      FoldTables(tables, q, srid, o);
      var prev := LayersStep(tables, q, srid, o);
      var after := LayersStep(tables, layers, srid, o).0;
      if !x.failed {
        FoldIdempotent(x.layerName);
      }
      assert forall t :: t in after <==> t in prev.0 || (!x.failed && t == Lower(x.layerName));
      forall t ensures t in after <==>
        t in tables || exists m :: 0 <= m < |layers| && !layers[m].failed && Lower(layers[m].layerName) == t
      {
        if exists m :: 0 <= m < |layers| && !layers[m].failed && Lower(layers[m].layerName) == t {
          var m :| 0 <= m < |layers| && !layers[m].failed && Lower(layers[m].layerName) == t;
          if m < |q| {
            assert !q[m].failed && Lower(q[m].layerName) == t;
          }
        }
        if exists m :: 0 <= m < |q| && !q[m].failed && Lower(q[m].layerName) == t {
          var m :| 0 <= m < |q| && !q[m].failed && Lower(q[m].layerName) == t;
          assert !layers[m].failed && Lower(layers[m].layerName) == t;
        }
      }
    }
  }

  /**
   * With every statement accepted and no analysed layer's table present at the start, a layer
   * is created exactly when it was analysed and no earlier analysed layer has its table name.
   */
  lemma CreatedUnderAllOk(tables: map<string, seq<string>>, layers: seq<LayerInfo>, srid: int, o: DdlOutcomes, i: nat)
    requires AllDdlOk(o) && i < |layers|
    requires forall k :: 0 <= k < |layers| && !layers[k].failed ==> Lower(layers[k].layerName) !in tables
    ensures CreatedAt(tables, layers, i, srid, o) <==> !layers[i].failed && FirstOfName(layers, i)
  {
    var p := layers[..i];
    var prev := LayersStep(tables, p, srid, o);
    FoldTables(tables, p, srid, o);
    LayerStepKeepsCreated(prev.0, prev.1, layers[i], srid, o);
    assert forall m :: 0 <= m < i ==> p[m] == layers[m];
    if CreatedAt(tables, layers, i, srid, o) {
      CreatedTableRecord(prev.0, prev.1, layers[i], srid, o);
    }
  }

  /** Without an analysed layer the run returns and no table is created, whatever the database answers. */
  lemma NothingCreated(tables: map<string, seq<string>>, layers: seq<LayerInfo>, srid: int, o: DdlOutcomes)
    requires forall i :: 0 <= i < |layers| ==> layers[i].failed
    ensures SchemaOf(tables, layers, srid, o).1.Ok?
    ensures SchemaOf(tables, layers, srid, o).1.value.created == []
  {
    RunRaisesIff(tables, layers, srid, o, false);
    RunFollowsFold(tables, layers, srid, o, false);
    NothingCreatedFold(tables, layers, srid, o);
  }

  lemma {:induction false} NothingCreatedFold(tables: map<string, seq<string>>, layers: seq<LayerInfo>,
                                              srid: int, o: DdlOutcomes)
    requires forall i :: 0 <= i < |layers| ==> layers[i].failed
    ensures LayersStep(tables, layers, srid, o).1.created == []
  {
    if |layers| > 0 {
      var p := layers[..|layers| - 1];
      assert forall i :: 0 <= i < |p| ==> p[i] == layers[i];
      NothingCreatedFold(tables, p, srid, o);
    }
  }

  // ---------------------------------------------------------------------------
  // step3_import_data

  /** The returned dictionary: files found, tiles imported, tiles that raised, rows imported. */
  datatype ImportTotals = ImportTotals(totalFiles: nat, success: nat, failed: nat, totalRecords: nat)

  /** The rows the imported layers contributed. */
  function ImportedRows(outs: seq<LayerOutcome>): nat {
    if |outs| == 0 then 0
    else ImportedRows(outs[..|outs| - 1]) + (if outs[|outs| - 1].Imported? then outs[|outs| - 1].count else 0)
  }

  /** A tile's table_stats sum to the rows of its imported layers. */
  lemma {:induction false} ValuesSumIsImportedRows(gdbName: string, tileCode: string, n: nat, outs: seq<LayerOutcome>)
    ensures ValuesSum(Summarize(Start(gdbName, tileCode, n), outs).tableStats) == ImportedRows(outs)
  {
    if |outs| > 0 {
      var p := outs[..|outs| - 1];
      ValuesSumIsImportedRows(gdbName, tileCode, n, p);
      var last := outs[|outs| - 1];
      if last.Imported? {
        ValuesSumAdd(Summarize(Start(gdbName, tileCode, n), p).tableStats, last.table, last.count);
      }
    }
  }

  /** The counters after the first tiles, each tile i imported with its own oracles o(i). */
  ghost function Step3Fold<G>(tables: map<string, seq<string>>, gdbs: seq<Gdb<G>>, srid: int, batchSize: int,
                              skipInvalid: bool, o: nat -> TileOracles<G>): ImportTotals
  {
    if |gdbs| == 0 then ImportTotals(0, 0, 0, 0)
    else
      var prev := Step3Fold(tables, gdbs[..|gdbs| - 1], srid, batchSize, skipInvalid, o);
      var r := PipelineTileOf(tables, gdbs[|gdbs| - 1], srid, batchSize, skipInvalid, o(|gdbs| - 1));
      if r.Ok? then prev.(success := prev.success + 1, totalRecords := prev.totalRecords + ValuesSum(r.value.tableStats))
      else prev.(failed := prev.failed + 1)
  }

  /** step3_import_data over the *.gdb directories found, in the order they are listed. */
  ghost function Step3Of<G>(tables: map<string, seq<string>>, gdbs: seq<Gdb<G>>, srid: int, batchSize: int,
                            skipInvalid: bool, o: nat -> TileOracles<G>): Result<ImportTotals, SetupError>
  {
    if |gdbs| == 0 then Err(NoGdbFiles)
    else Ok(Step3Fold(tables, gdbs, srid, batchSize, skipInvalid, o).(totalFiles := |gdbs|))
  }

  lemma Step3FoldNext<G>(tables: map<string, seq<string>>, gdbs: seq<Gdb<G>>, i: nat, srid: int, batchSize: int,
                         skipInvalid: bool, o: nat -> TileOracles<G>)
    requires i < |gdbs|
    ensures var prev := Step3Fold(tables, gdbs[..i], srid, batchSize, skipInvalid, o);
      var r := PipelineTileOf(tables, gdbs[i], srid, batchSize, skipInvalid, o(i));
      Step3Fold(tables, gdbs[..i + 1], srid, batchSize, skipInvalid, o)
      == if r.Ok? then prev.(success := prev.success + 1, totalRecords := prev.totalRecords + ValuesSum(r.value.tableStats))
         else prev.(failed := prev.failed + 1)
  {
    assert gdbs[..i + 1][..i] == gdbs[..i];
  }

  /** The tile loop of step3; a tile whose import raises is counted as failed and the loop goes on. */
  method Step3ImportData<G>(catalog: Catalog, gdbs: seq<Gdb<G>>, srid: int, batchSize: int, skipInvalid: bool,
                            o: nat -> TileOracles<G>) returns (r: Result<ImportTotals, SetupError>)
    ensures r == Step3Of(catalog.tables, gdbs, srid, batchSize, skipInvalid, o)
  {
    if |gdbs| == 0 {
      return Err(NoGdbFiles);
    }
    var success, failed, records := 0, 0, 0;
    var i := 0;
    while i < |gdbs|
      invariant 0 <= i <= |gdbs|
      invariant ImportTotals(0, success, failed, records)
        == Step3Fold(catalog.tables, gdbs[..i], srid, batchSize, skipInvalid, o)
    {
      Step3FoldNext(catalog.tables, gdbs, i, srid, batchSize, skipInvalid, o);
      var tile := ImportGdbToUnifiedTables(catalog, gdbs[i], srid, batchSize, skipInvalid, o(i));
      if tile.Ok? {
        var n := SumValues(tile.value.tableStats);
        success := success + 1;
        records := records + n;
      } else {
        failed := failed + 1;
      }
      i := i + 1;
    }
    assert gdbs[..|gdbs|] == gdbs;
    r := Ok(ImportTotals(|gdbs|, success, failed, records));
  }

  /** The geodatabase cannot be read as a tile: its layer list is unreadable or empty. */
  predicate Unreadable<G>(gdb: Gdb<G>) {
    gdb.layers.None? || gdb.layers == Some([])
  }

  function UnreadableTiles<G>(gdbs: seq<Gdb<G>>): (r: nat)
    ensures r <= |gdbs|
  {
    if |gdbs| == 0 then 0
    else UnreadableTiles(gdbs[..|gdbs| - 1]) + (if Unreadable(gdbs[|gdbs| - 1]) then 1 else 0)
  }

  /** The rows every readable tile's layers contributed, from the per-layer outcomes. */
  function TileRows<G>(tables: map<string, seq<string>>, gdbs: seq<Gdb<G>>, srid: int, batchSize: int,
                       skipInvalid: bool, o: nat -> TileOracles<G>): nat
  {
    if |gdbs| == 0 then 0
    else
      var g := gdbs[|gdbs| - 1];
      var rows := if Unreadable(g) then 0
                  else ImportedRows(PipelineOutcomes(tables, g.layers.value, ExtractTileCode(ReplaceAll(g.stem, ".gdb", "")),
                                                     srid, batchSize, skipInvalid, o(|gdbs| - 1)));
      TileRows(tables, gdbs[..|gdbs| - 1], srid, batchSize, skipInvalid, o) + rows
  }

  lemma {:induction false} Step3FoldCounts<G>(tables: map<string, seq<string>>, gdbs: seq<Gdb<G>>, srid: int,
                                              batchSize: int, skipInvalid: bool, o: nat -> TileOracles<G>)
    ensures var t := Step3Fold(tables, gdbs, srid, batchSize, skipInvalid, o);
      && t.success + t.failed == |gdbs|
      && t.failed == UnreadableTiles(gdbs)
      && t.totalRecords == TileRows(tables, gdbs, srid, batchSize, skipInvalid, o)
  {
    if |gdbs| > 0 {
      var p := gdbs[..|gdbs| - 1];
      var g := gdbs[|gdbs| - 1];
      Step3FoldCounts(tables, p, srid, batchSize, skipInvalid, o);
      var o' := o(|gdbs| - 1);
      if !Unreadable(g) {
        var gdbName := ReplaceAll(g.stem, ".gdb", "");
        var tileCode := ExtractTileCode(gdbName);
        ValuesSumIsImportedRows(gdbName, tileCode, |g.layers.value|,
                                 PipelineOutcomes(tables, g.layers.value, tileCode, srid, batchSize, skipInvalid, o'));
      }
    }
  }

  /**
   * step3 raises exactly when no geodatabase is found; otherwise every tile is counted once,
   * the failed ones are those whose layers cannot be listed or are none, and total_records is
   * the number of rows the layers of the other tiles imported.
   */
  lemma Step3Accounting<G>(tables: map<string, seq<string>>, gdbs: seq<Gdb<G>>, srid: int, batchSize: int,
                           skipInvalid: bool, o: nat -> TileOracles<G>)
    ensures var r := Step3Of(tables, gdbs, srid, batchSize, skipInvalid, o);
      && (r == Err(NoGdbFiles) <==> |gdbs| == 0)
      && (r.Ok? ==>
            && r.value.totalFiles == |gdbs|
            && r.value.success + r.value.failed == r.value.totalFiles
            && r.value.failed == UnreadableTiles(gdbs)
            && r.value.totalRecords == TileRows(tables, gdbs, srid, batchSize, skipInvalid, o))
  {
    Step3FoldCounts(tables, gdbs, srid, batchSize, skipInvalid, o);
  }

  // ---------------------------------------------------------------------------
  // full_setup

  /** The reference geodatabases looked for, in order, when none is given. */
  const DefaultGdbs: seq<string> := ["F49.gdb", "G49.gdb", "G50.gdb", "F50.gdb"]

  /** The first of `names` that exists. */
  function FirstPresent(names: seq<string>, present: set<string>): (r: Option<string>)
    ensures r.Some? ==> r.value in present && r.value in names
    ensures r.None? <==> forall i :: 0 <= i < |names| ==> names[i] !in present
    ensures r.Some? ==> exists i :: 0 <= i < |names| && names[i] == r.value && forall j :: 0 <= j < i ==> names[j] !in present
  {
    if |names| == 0 then None
    else if names[0] in present then Some(names[0])
    else
      var r := FirstPresent(names[1..], present);
      assert forall i :: 0 < i < |names| ==> names[i] == names[1..][i - 1];
      if r.Some? then
        var i :| 0 <= i < |names[1..]| && names[1..][i] == r.value && forall j :: 0 <= j < i ==> names[1..][j] !in present;
        assert names[i + 1] == r.value;
        r
      else r
  }

  /** A name that `*_complete_analysis.json` matches; Path.glob also lists names beginning with a dot. */
  predicate IsAnalysisFile(f: string) {
    EndsWith(f, AnalysisSuffix)
  }

  /** glob("*_complete_analysis.json") over the output directory, in listing order. */
  function AnalysisFiles(files: seq<string>): (r: seq<string>)
    ensures |r| <= |files|
    ensures forall f :: f in r <==> f in files && IsAnalysisFile(f)
  {
    if |files| == 0 then []
    else
      var p := files[..|files| - 1];
      var last := files[|files| - 1];
      assert files == p + [last];
      AnalysisFiles(p) + (if IsAnalysisFile(last) then [last] else [])
  }

  /** The options of full_setup that decide the flow. */
  datatype SetupOptions = SetupOptions(
    referenceGdb: Option<string>,
    srid: int,
    batchSize: int,
    skipInvalid: bool,
    force: bool,
    skipParse: bool,
    skipCreate: bool,
    skipImport: bool)

  /**
   * What full_setup finds: the entries of the working directory, the output directory's files
   * in listing order, whether parsing a geodatabase path succeeds, the layers stored in an
   * analysis file, the database's answers, the reply to the prompt, and the geodatabases of
   * gdb_dir with their oracles.
   */
  datatype Environment<!G> = Environment(
    cwd: set<string>,
    outputFiles: seq<string>,
    parseOk: string -> bool,
    analyses: string -> seq<LayerInfo>,
    ddl: DdlOutcomes,
    answer: string,
    gdbs: seq<Gdb<G>>,
    tiles: nat -> TileOracles<G>)

  datatype SetupOutcome =
    | Stopped(error: SetupError)
    | Cancelled
    | Finished(created: Option<bool>, imported: Option<ImportTotals>)

  /** The reply that lets the import go on after step2 created nothing. */
  predicate Proceeds(answer: string) {
    Lower(Strip(answer)) == "yes" || Lower(Strip(answer)) == "y"
  }

  /** The stem of a geodatabase path: its last component without its suffix. */
  function PathStem(path: string): string {
    Stem(AfterLast(path, '/'))
  }

  /** Given a value that Python treats as true. */
  predicate Given(s: Option<string>) {
    s.Some? && s.value != ""
  }

  /** The reference geodatabase full_setup parses: the one given, or the first default present. */
  function ChosenGdb<G>(opts: SetupOptions, env: Environment<G>): Option<string> {
    if Given(opts.referenceGdb) then opts.referenceGdb else FirstPresent(DefaultGdbs, env.cwd)
  }

  /** With skip_parse: the reference tile's analysis file, else the first analysis file listed. */
  function EarlierAnalysis<G>(opts: SetupOptions, env: Environment<G>): Result<string, SetupError> {
    var file := AnalysisFileName(if Given(opts.referenceGdb) then opts.referenceGdb.value else "F49");
    var found := AnalysisFiles(env.outputFiles);
    if file in env.outputFiles then Ok(file)
    else if |found| > 0 then Ok(found[0])
    else Err(NoAnalysisFound)
  }

  /**
   * The analysis file full_setup hands to step2, as written: step1 is called without a reference
   * tile, so after the parse it looks for the file of the tile derived from the name.
   */
  function SelectAnalysis<G>(opts: SetupOptions, env: Environment<G>): Result<string, SetupError> {
    if !opts.skipParse then
      var gdb := ChosenGdb(opts, env);
      if gdb.None? then Err(NoReferenceGdb)
      else Step1AsWritten(PathStem(gdb.value), None, env.parseOk(gdb.value), env.outputFiles)
    else EarlierAnalysis(opts, env)
  }

  /** The selection with the corrected step1, which returns the file the parse wrote. */
  function SelectAnalysisCorrected<G>(opts: SetupOptions, env: Environment<G>): Result<string, SetupError> {
    if !opts.skipParse then
      var gdb := ChosenGdb(opts, env);
      if gdb.None? then Err(NoReferenceGdb)
      else Step1(PathStem(gdb.value), env.parseOk(gdb.value))
    else EarlierAnalysis(opts, env)
  }

  /** full_setup as written: the new catalog and how the run ends. */
  ghost function FullSetupOf<G>(tables: map<string, seq<string>>, opts: SetupOptions,
                                env: Environment<G>): (map<string, seq<string>>, SetupOutcome)
  {
    SetupFrom(tables, opts, env, SelectAnalysis(opts, env))
  }

  /** full_setup with the corrected step1. */
  ghost function FullSetupCorrectedOf<G>(tables: map<string, seq<string>>, opts: SetupOptions,
                                         env: Environment<G>): (map<string, seq<string>>, SetupOutcome)
  {
    SetupFrom(tables, opts, env, SelectAnalysisCorrected(opts, env))
  }

  /** The rest of full_setup once the analysis file is chosen (or its choice failed). */
  ghost function SetupFrom<G>(tables: map<string, seq<string>>, opts: SetupOptions, env: Environment<G>,
                              file: Result<string, SetupError>): (map<string, seq<string>>, SetupOutcome)
  {
    if file.Err? then (tables, Stopped(file.error))
    else
      var (tables', step2) :=
        if opts.skipCreate then (tables, Ok(None))
        else
          var (t, r) := Step2Of(tables, Some(env.analyses(file.value)), file.value, opts.srid, opts.force, env.ddl);
          (t, if r.Ok? then Ok(Some(r.value)) else Err(r.error));
      if step2.Err? then (tables', Stopped(step2.error))
      else
        var created := step2.value;
        if created == Some(false) && !Proceeds(env.answer) then (tables', Cancelled)
        else if opts.skipImport then (tables', Finished(created, None))
        else
          var r := Step3Of(tables', env.gdbs, opts.srid, opts.batchSize, opts.skipInvalid, env.tiles);
          if r.Err? then (tables', Stopped(r.error)) else (tables', Finished(created, Some(r.value)))
  }

  /** The search for a default reference geodatabase. */
  method FindReferenceGdb(cwd: set<string>) returns (r: Option<string>)
    ensures r == FirstPresent(DefaultGdbs, cwd)
  {
    var i := 0;
    while i < |DefaultGdbs|
      invariant 0 <= i <= |DefaultGdbs|
      invariant FirstPresent(DefaultGdbs, cwd) == FirstPresent(DefaultGdbs[i..], cwd)
    {
      assert DefaultGdbs[i..][1..] == DefaultGdbs[i + 1..];
      if DefaultGdbs[i] in cwd {
        return Some(DefaultGdbs[i]);
      }
      i := i + 1;
    }
    return None;
  }

  /** The first part of full_setup: step1, or the search for an earlier analysis. */
  method ChooseAnalysis<G>(opts: SetupOptions, env: Environment<G>) returns (r: Result<string, SetupError>)
    ensures r == SelectAnalysis(opts, env)
  {
    if !opts.skipParse {
      var gdb := opts.referenceGdb;
      if !Given(gdb) {
        gdb := FindReferenceGdb(env.cwd);
        if gdb.None? {
          return Err(NoReferenceGdb);
        }
      }
      r := Step1AsWritten(PathStem(gdb.value), None, env.parseOk(gdb.value), env.outputFiles);
    } else {
      var tile := if Given(opts.referenceGdb) then opts.referenceGdb.value else "F49";
      var file := AnalysisFileName(tile);
      if file in env.outputFiles {
        return Ok(file);
      }
      var found := AnalysisFiles(env.outputFiles);
      if |found| == 0 {
        return Err(NoAnalysisFound);
      }
      r := Ok(found[0]);
    }
  }

  /** full_setup with the file system, the database and the operator given by `env`. */
  method FullSetup<G>(catalog: Catalog, opts: SetupOptions, env: Environment<G>) returns (out: SetupOutcome)
    modifies catalog
    ensures (catalog.tables, out) == FullSetupOf(old(catalog.tables), opts, env)
  {
    var chosen := ChooseAnalysis(opts, env);
    if chosen.Err? {
      return Stopped(chosen.error);
    }
    var file := chosen.value;
    var created: Option<bool> := None;
    if !opts.skipCreate {
      var r := Step2CreateSchema(catalog, Some(env.analyses(file)), file, opts.srid, opts.force, env.ddl);
      if r.Err? {
        return Stopped(r.error);
      }
      created := Some(r.value);
      if !r.value && !Proceeds(env.answer) {
        return Cancelled;
      }
    }
    if opts.skipImport {
      return Finished(created, None);
    }
    var imported := Step3ImportData(catalog, env.gdbs, opts.srid, opts.batchSize, opts.skipInvalid, env.tiles);
    if imported.Err? {
      return Stopped(imported.error);
    }
    out := Finished(created, Some(imported.value));
  }

  /**
   * With parsing skipped, full_setup uses an analysis file that exists, the reference one when
   * present, and stops only when the output directory holds no analysis file at all.
   */
  lemma SkipParseFallback<G>(opts: SetupOptions, env: Environment<G>)
    requires opts.skipParse
    ensures var tile := if Given(opts.referenceGdb) then opts.referenceGdb.value else "F49";
      var r := SelectAnalysis(opts, env);
      && (r.Ok? ==> r.value in env.outputFiles)
      && (r.Ok? && r.value != AnalysisFileName(tile) ==> IsAnalysisFile(r.value) && AnalysisFileName(tile) !in env.outputFiles)
      && (r.Err? <==> AnalysisFileName(tile) !in env.outputFiles && forall f :: f in env.outputFiles ==> !IsAnalysisFile(f))
  {
    var found := AnalysisFiles(env.outputFiles);
    if |found| > 0 {
      assert found[0] in found;
    }
  }

  /** With parsing and the corrected step1, the analysis used is the one the parse of the chosen geodatabase wrote. */
  lemma ParseSelectsItsOutput<G>(opts: SetupOptions, env: Environment<G>)
    requires !opts.skipParse
    ensures var r := SelectAnalysisCorrected(opts, env);
      && (r == Err(NoReferenceGdb)
          <==> !Given(opts.referenceGdb) && (forall i :: 0 <= i < |DefaultGdbs| ==> DefaultGdbs[i] !in env.cwd))
      && (r.Ok? ==>
            exists gdb :: && ((Given(opts.referenceGdb) && gdb == opts.referenceGdb.value) || gdb in DefaultGdbs)
                          && env.parseOk(gdb) && r.value == ParseOutput(PathStem(gdb)))
  {
  }

  /**
   * With parsing, as written: the run stops for lack of a geodatabase under the same condition;
   * otherwise the parse of the chosen geodatabase succeeded and the file used is the derived
   * tile's, provided it was listed before the run or is the one the parse wrote, and it is the
   * parse's own file exactly when the derived tile is the whole name.
   */
  lemma ParseAsWrittenSelects<G>(opts: SetupOptions, env: Environment<G>)
    requires !opts.skipParse
    ensures var r := SelectAnalysis(opts, env);
      var gdb := ChosenGdb(opts, env);
      && (r == Err(NoReferenceGdb)
          <==> !Given(opts.referenceGdb) && (forall i :: 0 <= i < |DefaultGdbs| ==> DefaultGdbs[i] !in env.cwd))
      && (r.Ok? ==>
            && gdb.Some? && ((Given(opts.referenceGdb) && gdb.value == opts.referenceGdb.value) || gdb.value in DefaultGdbs)
            && env.parseOk(gdb.value)
            && var name := ReplaceAll(PathStem(gdb.value), ".gdb", "");
               && r.value == AnalysisFileName(ReferenceTile(name))
               && r.value in env.outputFiles + [ParseOutput(PathStem(gdb.value))]
               && (r.value == ParseOutput(PathStem(gdb.value)) <==> ReferenceTile(name) == name))
  {
    var r := SelectAnalysis(opts, env);
    var gdb := ChosenGdb(opts, env);
    if gdb.Some? {
      var stem := PathStem(gdb.value);
      var name := ReplaceAll(stem, ".gdb", "");
      assert r == Step1AsWritten(stem, None, env.parseOk(gdb.value), env.outputFiles);
      assert r != Err(NoReferenceGdb);
      if r.Ok? && r.value == ParseOutput(stem) {
        AppendCancel(ReferenceTile(name), name, AnalysisSuffix);
      }
    }
  }

  /**
   * The two selections agree whenever step1's derived tile is the whole name, or parsing is
   * skipped; then full_setup as written and corrected end alike.
   */
  lemma AsWrittenAgreesWhenTileIsName<G>(tables: map<string, seq<string>>, opts: SetupOptions, env: Environment<G>)
    requires opts.skipParse || ChosenGdb(opts, env).None?
             || var name := ReplaceAll(PathStem(ChosenGdb(opts, env).value), ".gdb", "");
                ReferenceTile(name) == name
    ensures SelectAnalysis(opts, env) == SelectAnalysisCorrected(opts, env)
    ensures FullSetupOf(tables, opts, env) == FullSetupCorrectedOf(tables, opts, env)
  {
  }

  /**
   * The import runs only when step2 created a table, was skipped, or the operator agreed to go
   * on; a cancelled run stops right after step2.
   */
  lemma ImportNeedsSchemaOrConsent<G>(tables: map<string, seq<string>>, opts: SetupOptions, env: Environment<G>)
    ensures var (tables', out) := FullSetupOf(tables, opts, env);
      && (out.Finished? && out.imported.Some? ==> !opts.skipImport && (out.created != Some(false) || Proceeds(env.answer)))
      && (out.Cancelled? ==> !opts.skipCreate && out == Cancelled && !Proceeds(env.answer))
      && (opts.skipCreate ==> tables' == tables)
      && (out.Finished? ==> (out.created.None? <==> opts.skipCreate))
  {
    SetupFromConsent(tables, opts, env, SelectAnalysis(opts, env));
  }

  lemma SetupFromConsent<G>(tables: map<string, seq<string>>, opts: SetupOptions, env: Environment<G>,
                            file: Result<string, SetupError>)
    ensures var (tables', out) := SetupFrom(tables, opts, env, file);
      && (out.Finished? && out.imported.Some? ==> !opts.skipImport && (out.created != Some(false) || Proceeds(env.answer)))
      && (out.Cancelled? ==> !opts.skipCreate && out == Cancelled && !Proceeds(env.answer))
      && (opts.skipCreate ==> tables' == tables)
      && (out.Finished? ==> (out.created.None? <==> opts.skipCreate))
  {
    if file.Ok? && !opts.skipCreate {
      var (t, r) := Step2Of(tables, Some(env.analyses(file.value)), file.value, opts.srid, opts.force, env.ddl);
      assert SetupFrom(tables, opts, env, file).1.Finished? ==> r.Ok? && SetupFrom(tables, opts, env, file).1.created == Some(r.value);
    }
  }
}
