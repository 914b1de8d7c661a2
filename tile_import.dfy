// The per-tile layer loops: import_gdb_to_unified_tables of scripts/import_all_tiles.py and
// GDBImporter.import_gdb_sync of core/gdb_importer.py. Each layer of a geodatabase lands in
// exactly one bucket (skipped, success or error), and the rows imported are summed per table.

module TileImport {
  import opened Wrappers
  import opened Strings
  import opened Values
  import opened Identifiers
  import opened Database
  import opened LayerImport
  import opened ImporterTable
  import opened MapSum

  /**
   * A geodatabase as the loops see it: its path stem and its layer list (None when
   * listlayers raises), each layer with the result of opening it (None when that raises).
   */
  datatype Gdb<G> = Gdb(stem: string, layers: Option<seq<(string, Option<Layer<G>>)>>)

  /** The two ValueErrors: the layer list cannot be read, or it is empty. */
  datatype TileError = CannotList | NoLayers

  datatype LayerOutcome = Skipped | Imported(table: string, count: nat) | Failed

  /** The returned dictionary, less the elapsed time; `status` is always "success". */
  datatype TileSummary = TileSummary(
    gdbName: string,
    tileCode: string,
    totalLayers: nat,
    success: nat,
    errors: nat,
    skipped: nat,
    tableStats: map<string, nat>)

  /** shapely, the decoder, the k-th executemany of the i-th layer, and the importer's DDL. */
  datatype TileOracles<!G> = TileOracles(
    ops: Shapely<G>,
    decodeUtf8: seq<bv8> -> string,
    insertOk: (nat, nat) -> bool,
    ddl: DdlOracle)

  function LayerOracles<G>(o: TileOracles<G>, idx: nat): Oracles<G> {
    Oracles(o.ops, o.decodeUtf8, (n: nat) => o.insertOk(idx, n))
  }

  /** The emptiness probe: a layer that opens and yields no first feature. A failed probe is not empty. */
  predicate IsEmptyLayer<G>(layer: Option<Layer<G>>) {
    layer.Some? && |layer.value.features| == 0
  }

  /** The counter updates for one layer. */
  function Record(s: TileSummary, out: LayerOutcome): TileSummary {
    match out
    case Skipped => s.(skipped := s.skipped + 1)
    case Failed => s.(errors := s.errors + 1)
    case Imported(t, c) => s.(success := s.success + 1, tableStats := s.tableStats[t := Stat(s.tableStats, t) + c])
  }

  function Summarize(s: TileSummary, outs: seq<LayerOutcome>): TileSummary {
    if |outs| == 0 then s
    else Record(Summarize(s, outs[..|outs| - 1]), outs[|outs| - 1])
  }

  function Start(gdbName: string, tileCode: string, n: nat): TileSummary {
    TileSummary(gdbName, tileCode, n, 0, 0, 0, map[])
  }

  lemma SummarizeNext(s: TileSummary, outs: seq<LayerOutcome>, i: nat)
    requires i < |outs|
    ensures Summarize(s, outs[..i + 1]) == Record(Summarize(s, outs[..i]), outs[i])
  {
    assert outs[..i + 1][..i] == outs[..i];
  }

  /** The counter updates of the loop body. */
  method CountLayer(gdbName: string, tileCode: string, n: nat, success: nat, errors: nat, skipped: nat,
                    stats: map<string, nat>, out: LayerOutcome)
    returns (success': nat, errors': nat, skipped': nat, stats': map<string, nat>)
    ensures TileSummary(gdbName, tileCode, n, success', errors', skipped', stats')
      == Record(TileSummary(gdbName, tileCode, n, success, errors, skipped, stats), out)
  {
    success', errors', skipped', stats' := success, errors, skipped, stats;
    match out {
      case Skipped =>
        skipped' := skipped + 1;
      case Failed =>
        errors' := errors + 1;
      case Imported(t, c) =>
        stats' := stats[t := Stat(stats, t) + c];
        success' := success + 1;
    }
  }

  // ---------------------------------------------------------------------------
  // import_gdb_to_unified_tables

  /** One layer of the pipeline: skipped when its table is missing or the layer is empty. */
  function PipelineOutcome<G>(tables: map<string, seq<string>>, idx: nat, entry: (string, Option<Layer<G>>),
                              tileCode: string, srid: int, batchSize: int, skipInvalid: bool,
                              o: TileOracles<G>): LayerOutcome
  {
    var t := GetTableName(entry.0);
    if t !in tables || IsEmptyLayer(entry.1) then Skipped
    else
      var c := LayerImportOf(Pipeline, t, tables[t], entry.1, tileCode, srid, batchSize, skipInvalid,
                             LayerOracles(o, idx)).count;
      if c > 0 then Imported(t, c) else Failed
  }

  function PipelineOutcomes<G>(tables: map<string, seq<string>>, layers: seq<(string, Option<Layer<G>>)>,
                               tileCode: string, srid: int, batchSize: int, skipInvalid: bool,
                               o: TileOracles<G>): (r: seq<LayerOutcome>)
    ensures |r| == |layers|
    ensures forall i :: 0 <= i < |layers| ==>
      r[i] == PipelineOutcome(tables, i, layers[i], tileCode, srid, batchSize, skipInvalid, o)
  {
    seq(|layers|, i requires 0 <= i < |layers| =>
      PipelineOutcome(tables, i, layers[i], tileCode, srid, batchSize, skipInvalid, o))
  }

  function PipelineTileOf<G>(tables: map<string, seq<string>>, gdb: Gdb<G>, srid: int, batchSize: int,
                             skipInvalid: bool, o: TileOracles<G>): Result<TileSummary, TileError>
  {
    var gdbName := ReplaceAll(gdb.stem, ".gdb", "");
    var tileCode := ExtractTileCode(gdbName);
    if gdb.layers.None? then Err(CannotList)
    else if |gdb.layers.value| == 0 then Err(NoLayers)
    else
      var ls := gdb.layers.value;
      Ok(Summarize(Start(gdbName, tileCode, |ls|),
                   PipelineOutcomes(tables, ls, tileCode, srid, batchSize, skipInvalid, o)))
  }

  method PipelineLayer<G>(catalog: Catalog, idx: nat, entry: (string, Option<Layer<G>>), tileCode: string,
                          srid: int, batchSize: int, skipInvalid: bool, o: TileOracles<G>)
    returns (out: LayerOutcome)
    ensures out == PipelineOutcome(catalog.tables, idx, entry, tileCode, srid, batchSize, skipInvalid, o)
  {
    var t := GetTableName(entry.0);
    if !catalog.HasTable(t) {
      return Skipped;
    }
    if IsEmptyLayer(entry.1) {
      return Skipped;
    }
    var imported := ImportLayerData(Pipeline, t, catalog.tables[t], entry.1, tileCode, srid, batchSize,
                                    skipInvalid, LayerOracles(o, idx));
    if imported.count > 0 {
      out := Imported(t, imported.count);
    } else {
      out := Failed;
    }
  }

  /** import_gdb_to_unified_tables. */
  method ImportGdbToUnifiedTables<G>(catalog: Catalog, gdb: Gdb<G>, srid: int, batchSize: int,
                                     skipInvalid: bool, o: TileOracles<G>)
    returns (r: Result<TileSummary, TileError>)
    ensures r == PipelineTileOf(catalog.tables, gdb, srid, batchSize, skipInvalid, o)
  {
    var gdbName := ReplaceAll(gdb.stem, ".gdb", "");
    var tileCode := ExtractTileCode(gdbName);
    if gdb.layers.None? {
      return Err(CannotList);
    }
    var ls := gdb.layers.value;
    if |ls| == 0 {
      return Err(NoLayers);
    }
    ghost var outs := PipelineOutcomes(catalog.tables, ls, tileCode, srid, batchSize, skipInvalid, o);
    var success, errors, skipped := 0, 0, 0;
    var stats: map<string, nat> := map[];
    var i := 0;
    while i < |ls|
      invariant 0 <= i <= |ls|
      invariant TileSummary(gdbName, tileCode, |ls|, success, errors, skipped, stats)
        == Summarize(Start(gdbName, tileCode, |ls|), outs[..i])
    {
      SummarizeNext(Start(gdbName, tileCode, |ls|), outs, i);
      var out := PipelineLayer(catalog, i, ls[i], tileCode, srid, batchSize, skipInvalid, o);
      assert out == outs[i];
      success, errors, skipped, stats := CountLayer(gdbName, tileCode, |ls|, success, errors, skipped, stats, out);
      i := i + 1;
    }
    assert outs[..|ls|] == outs;
    r := Ok(TileSummary(gdbName, tileCode, |ls|, success, errors, skipped, stats));
  }

  // ---------------------------------------------------------------------------
  // import_gdb_sync

  /**
   * One layer of the importer: an error when the layer_mapping entry has no table name or
   * the layer cannot be opened, skipped when it is empty; otherwise the table is ensured and
   * the rows imported. The field lookup is the folded one (see Findings).
   */
  function SyncLayer<G>(tables: map<string, seq<string>>, idx: nat, entry: (string, Option<Layer<G>>),
                        layerMapping: map<string, Option<string>>, tileCode: string, srid: int,
                        batchSize: int, skipInvalid: bool, createIndexes: bool,
                        o: TileOracles<G>): (r: (map<string, seq<string>>, LayerOutcome))
    ensures tables.Keys <= r.0.Keys
    ensures var tn := ImporterTableName(entry.0, layerMapping);
      && (r.1.Skipped? <==> tn.Some? && IsEmptyLayer(entry.1))
      && (r.1.Imported? ==> tn == Some(r.1.table) && r.1.count > 0)
      && (entry.1.Some? && entry.1.value.geometryType.None? && !r.1.Skipped? ==> r.1.Failed? && r.0 == tables)
  {
    var tn := ImporterTableName(entry.0, layerMapping);
    if tn.None? then (tables, Failed)
    else if IsEmptyLayer(entry.1) then (tables, Skipped)
    else if entry.1.None? then (tables, Failed)
    else
      var t := tn.value;
      var l := entry.1.value;
      var ensured := EnsureTableOf(tables, t, l.geometryType, l.properties, srid, createIndexes, o.ddl);
      EnsureKeepsTables(tables, t, l.geometryType, l.properties, srid, createIndexes, o.ddl);
      var tables' := ensured.0;
      if !ensured.1.ok then (tables', Failed)
      else (tables', SyncImport(tables', idx, t, entry.1, tileCode, srid, batchSize, skipInvalid, o))
  }

  /** The rows of an opened layer imported into its ensured table: a success only with a positive count. */
  function SyncImport<G>(tables: map<string, seq<string>>, idx: nat, t: string, layer: Option<Layer<G>>,
                         tileCode: string, srid: int, batchSize: int, skipInvalid: bool,
                         o: TileOracles<G>): (r: LayerOutcome)
    ensures r.Imported? || r.Failed?
    ensures r.Imported? ==> r.table == t && r.count > 0
  {
    var columns := if t in tables then tables[t] else [];
    var c := LayerImportOf(ImporterFolded, t, columns, layer, tileCode, srid, batchSize, skipInvalid,
                           LayerOracles(o, idx)).count;
    if c > 0 then Imported(t, c) else Failed
  }

  /** The layers in order, each against the catalog as the previous ones left it. */
  function SyncFold<G>(tables: map<string, seq<string>>, layers: seq<(string, Option<Layer<G>>)>,
                       layerMapping: map<string, Option<string>>, tileCode: string, srid: int,
                       batchSize: int, skipInvalid: bool, createIndexes: bool,
                       o: TileOracles<G>): (r: (map<string, seq<string>>, seq<LayerOutcome>))
    ensures |r.1| == |layers|
  {
    if |layers| == 0 then (tables, [])
    else
      var prev := SyncFold(tables, layers[..|layers| - 1], layerMapping, tileCode, srid, batchSize,
                           skipInvalid, createIndexes, o);
      var step := SyncLayer(prev.0, |layers| - 1, layers[|layers| - 1], layerMapping, tileCode, srid,
                            batchSize, skipInvalid, createIndexes, o);
      (step.0, prev.1 + [step.1])
  }

  /** import_gdb_sync: the new catalog and the result. */
  function SyncTileOf<G>(tables: map<string, seq<string>>, gdb: Gdb<G>, pattern: Option<string>,
                         layerMapping: map<string, Option<string>>, srid: int, batchSize: int,
                         skipInvalid: bool, createIndexes: bool,
                         o: TileOracles<G>): (map<string, seq<string>>, Result<TileSummary, TileError>)
  {
    var gdbName := ReplaceAll(gdb.stem, ".gdb", "");
    var tileCode := ImporterTileCode(gdbName, pattern);
    if gdb.layers.None? || |gdb.layers.value| == 0 then (tables, Err(NoLayers))
    else
      var ls := gdb.layers.value;
      var run := SyncFold(tables, ls, layerMapping, tileCode, srid, batchSize, skipInvalid, createIndexes, o);
      (run.0, Ok(Summarize(Start(gdbName, tileCode, |ls|), run.1)))
  }

  lemma SyncFoldNext<G>(tables: map<string, seq<string>>, layers: seq<(string, Option<Layer<G>>)>, i: nat,
                        layerMapping: map<string, Option<string>>, tileCode: string, srid: int,
                        batchSize: int, skipInvalid: bool, createIndexes: bool, o: TileOracles<G>)
    requires i < |layers|
    ensures var prev := SyncFold(tables, layers[..i], layerMapping, tileCode, srid, batchSize, skipInvalid, createIndexes, o);
      var step := SyncLayer(prev.0, i, layers[i], layerMapping, tileCode, srid, batchSize, skipInvalid, createIndexes, o);
      SyncFold(tables, layers[..i + 1], layerMapping, tileCode, srid, batchSize, skipInvalid, createIndexes, o)
        == (step.0, prev.1 + [step.1])
  {
    assert layers[..i + 1][..i] == layers[..i];
  }

  /** The body of the importer's layer loop. */
  method SyncLayerImport<G>(catalog: Catalog, idx: nat, entry: (string, Option<Layer<G>>),
                            layerMapping: map<string, Option<string>>, tileCode: string, srid: int,
                            batchSize: int, skipInvalid: bool, createIndexes: bool, o: TileOracles<G>)
    returns (out: LayerOutcome)
    modifies catalog
    ensures (catalog.tables, out)
      == SyncLayer(old(catalog.tables), idx, entry, layerMapping, tileCode, srid, batchSize, skipInvalid, createIndexes, o)
  {
    var tn := ImporterTableName(entry.0, layerMapping);
    if tn.None? {
      return Failed;
    }
    if IsEmptyLayer(entry.1) {
      return Skipped;
    }
    if entry.1.None? {
      return Failed;
    }
    var t := tn.value;
    var l := entry.1.value;
    var ensured := CreateTableIfNotExists(catalog, t, l.geometryType, l.properties, srid, createIndexes, o.ddl);
    if !ensured.ok {
      return Failed;
    }
    var columns := if catalog.HasTable(t) then catalog.tables[t] else [];
    var imported := ImportLayerData(ImporterFolded, t, columns, entry.1, tileCode, srid, batchSize,
                                    skipInvalid, LayerOracles(o, idx));
    if imported.count > 0 {
      out := Imported(t, imported.count);
    } else {
      out := Failed;
    }
  }

  /** One pass of the importer's layer loop. */
  method SyncStep<G>(catalog: Catalog, ghost initial: map<string, seq<string>>, ls: seq<(string, Option<Layer<G>>)>,
                     i: nat, gdbName: string, layerMapping: map<string, Option<string>>, tileCode: string, srid: int,
                     batchSize: int, skipInvalid: bool, createIndexes: bool, o: TileOracles<G>,
                     success: nat, errors: nat, skipped: nat, stats: map<string, nat>, ghost outs: seq<LayerOutcome>)
    returns (success': nat, errors': nat, skipped': nat, stats': map<string, nat>, ghost outs': seq<LayerOutcome>)
    requires i < |ls|
    requires (catalog.tables, outs)
      == SyncFold(initial, ls[..i], layerMapping, tileCode, srid, batchSize, skipInvalid, createIndexes, o)
    requires TileSummary(gdbName, tileCode, |ls|, success, errors, skipped, stats)
      == Summarize(Start(gdbName, tileCode, |ls|), outs)
    modifies catalog
    ensures (catalog.tables, outs')
      == SyncFold(initial, ls[..i + 1], layerMapping, tileCode, srid, batchSize, skipInvalid, createIndexes, o)
    ensures TileSummary(gdbName, tileCode, |ls|, success', errors', skipped', stats')
      == Summarize(Start(gdbName, tileCode, |ls|), outs')
  {
    SyncFoldNext(initial, ls, i, layerMapping, tileCode, srid, batchSize, skipInvalid, createIndexes, o);
    var out := SyncLayerImport(catalog, i, ls[i], layerMapping, tileCode, srid, batchSize, skipInvalid,
                               createIndexes, o);
    SummarizeNext(Start(gdbName, tileCode, |ls|), outs + [out], |outs|);
    assert (outs + [out])[..|outs|] == outs;
    outs' := outs + [out];
    success', errors', skipped', stats' := CountLayer(gdbName, tileCode, |ls|, success, errors, skipped, stats, out);
  }

  /** The importer's layer loop with its counters. */
  method SyncLayers<G>(catalog: Catalog, ls: seq<(string, Option<Layer<G>>)>, gdbName: string,
                       layerMapping: map<string, Option<string>>, tileCode: string, srid: int, batchSize: int,
                       skipInvalid: bool, createIndexes: bool, o: TileOracles<G>)
    returns (s: TileSummary)
    modifies catalog
    ensures var run := SyncFold(old(catalog.tables), ls, layerMapping, tileCode, srid, batchSize, skipInvalid, createIndexes, o);
      catalog.tables == run.0 && s == Summarize(Start(gdbName, tileCode, |ls|), run.1)
  {
    ghost var initial := catalog.tables;
    ghost var outs: seq<LayerOutcome> := [];
    var success, errors, skipped := 0, 0, 0;
    var stats: map<string, nat> := map[];
    var i := 0;
    while i < |ls|
      invariant 0 <= i <= |ls|
      invariant (catalog.tables, outs)
        == SyncFold(initial, ls[..i], layerMapping, tileCode, srid, batchSize, skipInvalid, createIndexes, o)
      invariant TileSummary(gdbName, tileCode, |ls|, success, errors, skipped, stats)
        == Summarize(Start(gdbName, tileCode, |ls|), outs)
    {
      success, errors, skipped, stats, outs := SyncStep(catalog, initial, ls, i, gdbName, layerMapping, tileCode,
        srid, batchSize, skipInvalid, createIndexes, o, success, errors, skipped, stats, outs);
      i := i + 1;
    }
    assert ls[..|ls|] == ls;
    s := TileSummary(gdbName, tileCode, |ls|, success, errors, skipped, stats);
  }

  /** import_gdb_sync. */
  method ImportGdbSync<G>(catalog: Catalog, gdb: Gdb<G>, pattern: Option<string>,
                          layerMapping: map<string, Option<string>>, srid: int, batchSize: int,
                          skipInvalid: bool, createIndexes: bool, o: TileOracles<G>)
    returns (r: Result<TileSummary, TileError>)
    modifies catalog
    ensures (catalog.tables, r)
      == SyncTileOf(old(catalog.tables), gdb, pattern, layerMapping, srid, batchSize, skipInvalid, createIndexes, o)
  {
    var gdbName := ReplaceAll(gdb.stem, ".gdb", "");
    var tileCode := ImporterTileCode(gdbName, pattern);
    if gdb.layers.None? || |gdb.layers.value| == 0 {
      return Err(NoLayers);
    }
    var s := SyncLayers(catalog, gdb.layers.value, gdbName, layerMapping, tileCode, srid, batchSize,
                        skipInvalid, createIndexes, o);
    r := Ok(s);
  }

  // ---------------------------------------------------------------------------
  // Properties

  /** The rows imported into `t` over the outcomes. */
  function TableSum(outs: seq<LayerOutcome>, t: string): nat {
    if |outs| == 0 then 0
    else
      var last := outs[|outs| - 1];
      TableSum(outs[..|outs| - 1], t) + (if last.Imported? && last.table == t then last.count else 0)
  }

  /** Some layer was imported into `t`. */
  ghost predicate ImportedInto(outs: seq<LayerOutcome>, t: string) {
    exists i :: 0 <= i < |outs| && outs[i].Imported? && outs[i].table == t
  }

  /**
   * Every outcome is counted once; table_stats holds, for each table some layer was
   * imported into and for no other, the sum of the rows imported into it.
   */
  lemma {:induction false} SummarizeCounts(gdbName: string, tileCode: string, n: nat, outs: seq<LayerOutcome>)
    ensures var s := Summarize(Start(gdbName, tileCode, n), outs);
      && s.gdbName == gdbName && s.tileCode == tileCode && s.totalLayers == n
      && s.success + s.errors + s.skipped == |outs|
      && (forall t :: Stat(s.tableStats, t) == TableSum(outs, t))
      && (forall t :: t in s.tableStats <==> ImportedInto(outs, t))
  {
    if |outs| > 0 {
      var p := outs[..|outs| - 1];
      var last := outs[|outs| - 1];
      SummarizeCounts(gdbName, tileCode, n, p);
      var s := Summarize(Start(gdbName, tileCode, n), outs);
      forall t ensures t in s.tableStats <==> ImportedInto(outs, t) {
        if ImportedInto(outs, t) && !(last.Imported? && last.table == t) {
          var i :| 0 <= i < |outs| && outs[i].Imported? && outs[i].table == t;
          assert i < |p| && p[i] == outs[i];
        }
        if ImportedInto(p, t) {
          var i :| 0 <= i < |p| && p[i].Imported? && p[i].table == t;
          assert outs[i] == p[i];
        }
      }
    }
  }

  /** An imported layer contributed at least one row. */
  lemma {:induction false} ImportedCountsPositive<G>(tables: map<string, seq<string>>, layers: seq<(string, Option<Layer<G>>)>,
                                                     tileCode: string, srid: int, batchSize: int, skipInvalid: bool,
                                                     o: TileOracles<G>, t: string)
    ensures ImportedInto(PipelineOutcomes(tables, layers, tileCode, srid, batchSize, skipInvalid, o), t)
      ==> TableSum(PipelineOutcomes(tables, layers, tileCode, srid, batchSize, skipInvalid, o), t) > 0
  {
    var outs := PipelineOutcomes(tables, layers, tileCode, srid, batchSize, skipInvalid, o);
    if ImportedInto(outs, t) {
      var i :| 0 <= i < |outs| && outs[i].Imported? && outs[i].table == t;
      SumAtLeastOne(outs, t, i);
    }
  }

  lemma {:induction false} SumAtLeastOne(outs: seq<LayerOutcome>, t: string, i: nat)
    requires i < |outs| && outs[i].Imported? && outs[i].table == t
    ensures TableSum(outs, t) >= outs[i].count
  {
    if i < |outs| - 1 {
      SumAtLeastOne(outs[..|outs| - 1], t, i);
    }
  }

  /**
   * The pipeline: an unreadable list and an empty list raise; otherwise every layer lands in
   * exactly one bucket, skipped exactly when its lower-cased table is missing or the layer is
   * empty, success exactly when rows were imported into that table.
   */
  lemma PipelineBuckets<G>(tables: map<string, seq<string>>, gdb: Gdb<G>, srid: int, batchSize: int,
                           skipInvalid: bool, o: TileOracles<G>)
    ensures var r := PipelineTileOf(tables, gdb, srid, batchSize, skipInvalid, o);
      && (gdb.layers.None? ==> r == Err(CannotList))
      && (gdb.layers == Some([]) ==> r == Err(NoLayers))
      && (gdb.layers.Some? && |gdb.layers.value| > 0 ==>
            r.Ok? && r.value.totalLayers == |gdb.layers.value|
            && r.value.success + r.value.errors + r.value.skipped == r.value.totalLayers
            && r.value.tileCode == ExtractTileCode(ReplaceAll(gdb.stem, ".gdb", "")))
  {
    if gdb.layers.Some? && |gdb.layers.value| > 0 {
      var ls := gdb.layers.value;
      var gdbName := ReplaceAll(gdb.stem, ".gdb", "");
      var tileCode := ExtractTileCode(gdbName);
      SummarizeCounts(gdbName, tileCode, |ls|, PipelineOutcomes(tables, ls, tileCode, srid, batchSize, skipInvalid, o));
    }
  }

  /** Which bucket one pipeline layer lands in. */
  lemma PipelineOutcomeRules<G>(tables: map<string, seq<string>>, idx: nat, entry: (string, Option<Layer<G>>),
                                tileCode: string, srid: int, batchSize: int, skipInvalid: bool, o: TileOracles<G>)
    ensures var out := PipelineOutcome(tables, idx, entry, tileCode, srid, batchSize, skipInvalid, o);
      var t := Lower(entry.0);
      && (out.Skipped? <==> t !in tables || IsEmptyLayer(entry.1))
      && (entry.1.None? && t in tables ==> out.Failed?)
      && (out.Imported? ==> out.table == t && out.count > 0)
  {
  }

  lemma EnsureKeepsTables(tables: map<string, seq<string>>, t: string, geometryType: Option<string>,
                          props: seq<(string, string)>, srid: int, createIndexes: bool, o: DdlOracle)
    ensures tables.Keys <= EnsureTableOf(tables, t, geometryType, props, srid, createIndexes, o).0.Keys
  {
  }

  /** The importer's tile loop: every layer in one bucket; the catalog only gains tables. */
  lemma {:induction false} SyncFoldKeepsTables<G>(tables: map<string, seq<string>>, layers: seq<(string, Option<Layer<G>>)>,
                                                  layerMapping: map<string, Option<string>>, tileCode: string, srid: int,
                                                  batchSize: int, skipInvalid: bool, createIndexes: bool, o: TileOracles<G>)
    ensures tables.Keys <= SyncFold(tables, layers, layerMapping, tileCode, srid, batchSize, skipInvalid, createIndexes, o).0.Keys
  {
    if |layers| > 0 {
      SyncFoldKeepsTables(tables, layers[..|layers| - 1], layerMapping, tileCode, srid, batchSize, skipInvalid, createIndexes, o);
    }
  }

  lemma SyncBuckets<G>(tables: map<string, seq<string>>, gdb: Gdb<G>, pattern: Option<string>,
                       layerMapping: map<string, Option<string>>, srid: int, batchSize: int,
                       skipInvalid: bool, createIndexes: bool, o: TileOracles<G>)
    ensures var (tables', r) := SyncTileOf(tables, gdb, pattern, layerMapping, srid, batchSize, skipInvalid, createIndexes, o);
      && (gdb.layers.None? || gdb.layers == Some([]) ==> r == Err(NoLayers) && tables' == tables)
      && (gdb.layers.Some? && |gdb.layers.value| > 0 ==>
            r.Ok? && r.value.totalLayers == |gdb.layers.value|
            && r.value.success + r.value.errors + r.value.skipped == r.value.totalLayers)
      && tables.Keys <= tables'.Keys
  {
    var gdbName := ReplaceAll(gdb.stem, ".gdb", "");
    var tileCode := ImporterTileCode(gdbName, pattern);
    if gdb.layers.Some? && |gdb.layers.value| > 0 {
      var ls := gdb.layers.value;
      var run := SyncFold(tables, ls, layerMapping, tileCode, srid, batchSize, skipInvalid, createIndexes, o);
      SummarizeCounts(gdbName, tileCode, |ls|, run.1);
      SyncFoldKeepsTables(tables, ls, layerMapping, tileCode, srid, batchSize, skipInvalid, createIndexes, o);
    }
  }
}
