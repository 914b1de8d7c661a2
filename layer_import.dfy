// The layer import loop shared by scripts/import_all_tiles.py (import_layer_data) and
// core/gdb_importer.py (GDBImporter._import_layer): a mapping from source fields to the
// table's columns, geometry gating through shapely, and an insert batch flushed at batch_size
// whose failure rolls back and counts every pending row as an error.

module LayerImport {
  import opened Wrappers
  import opened Strings
  import opened Values
  import opened Identifiers
  import opened Database

  /**
   * Which copy of the loop: the pipeline script's, the importer class's as written, and the
   * importer class's with the catalog's case folding applied to the cleaned field names.
   */
  datatype Variant = Pipeline | Importer | ImporterFolded

  /** The columns that are never filled from a source field. */
  function Excluded(v: Variant): set<string> {
    if v.Pipeline? then {"id", "geom", "tile_code", "created_at", "updated_at"}
    else {"id", "geom", "tile_code"}
  }

  /** The column name a source field is looked up under. */
  function Clean(v: Variant, field: string): string {
    match v
    case Pipeline => CleanIdentifier(field, MaxIdentifierLength)
    case Importer => ImporterCleanIdentifier(field, MaxIdentifierLength)
    case ImporterFolded => Fold(ImporterCleanIdentifier(field, MaxIdentifierLength))
  }

  /** data_columns: the table's columns in ordinal order, less the excluded ones. */
  function DataColumns(existing: seq<string>, excluded: set<string>): (r: seq<string>)
    ensures |r| <= |existing|
    ensures forall c :: c in r <==> c in existing && c !in excluded
  {
    if |existing| == 0 then []
    else
      var p := DataColumns(existing[..|existing| - 1], excluded);
      var c := existing[|existing| - 1];
      assert existing == existing[..|existing| - 1] + [c];
      if c in excluded then p else p + [c]
  }

  /** The ordinal positions data_columns keeps: those of the columns that are not excluded. */
  function KeptPositions(existing: seq<string>, excluded: set<string>): (ix: seq<int>)
    ensures |ix| <= |existing|
  {
    if |existing| == 0 then []
    else
      var p := KeptPositions(existing[..|existing| - 1], excluded);
      if existing[|existing| - 1] in excluded then p else p + [|existing| - 1]
  }

  /**
   * data_columns keeps information_schema's ordinal order: its k-th column is the column at a
   * position that grows strictly with k, and every position whose column is not excluded is kept.
   */
  lemma DataColumnsOrdered(existing: seq<string>, excluded: set<string>)
    ensures var r := DataColumns(existing, excluded);
      var ix := KeptPositions(existing, excluded);
      && |ix| == |r|
      && (forall k :: 0 <= k < |ix| ==> 0 <= ix[k] < |existing| && r[k] == existing[ix[k]])
      && (forall k, l :: 0 <= k < l < |ix| ==> ix[k] < ix[l])
      && (forall i :: 0 <= i < |existing| && existing[i] !in excluded ==> i in ix)
  {
    KeptPositionsOrdered(existing, excluded);
    DataColumnsAtKept(existing, excluded);
  }

  lemma {:induction false} KeptPositionsOrdered(existing: seq<string>, excluded: set<string>)
    ensures var ix := KeptPositions(existing, excluded);
      && (forall k :: 0 <= k < |ix| ==> 0 <= ix[k] < |existing|)
      && (forall k, l :: 0 <= k < l < |ix| ==> ix[k] < ix[l])
      && (forall i :: 0 <= i < |existing| && existing[i] !in excluded ==> i in ix)
  {
    if |existing| > 0 {
      var q := existing[..|existing| - 1];
      KeptPositionsOrdered(q, excluded);
      var jx := KeptPositions(q, excluded);
      var ix := KeptPositions(existing, excluded);
      assert forall i :: i in jx ==> i in ix;
      forall i | 0 <= i < |existing| && existing[i] !in excluded ensures i in ix {
        if i < |q| {
          assert q[i] == existing[i];
          assert i in jx;
        }
      }
    }
  }

  lemma {:induction false} DataColumnsAtKept(existing: seq<string>, excluded: set<string>)
    ensures var r := DataColumns(existing, excluded);
      var ix := KeptPositions(existing, excluded);
      && |ix| == |r|
      && (forall k :: 0 <= k < |ix| ==> 0 <= ix[k] < |existing| && r[k] == existing[ix[k]])
  {
    if |existing| > 0 {
      var q := existing[..|existing| - 1];
      DataColumnsAtKept(q, excluded);
      var jx := KeptPositions(q, excluded);
      assert forall k :: 0 <= k < |jx| ==> existing[jx[k]] == q[jx[k]];
    }
  }

  /** The first source field, in schema order, whose clean name is `column`. */
  function SourceField(v: Variant, fields: seq<string>, column: string): (r: Option<string>)
    ensures r.Some? ==> r.value in fields && Clean(v, r.value) == column
    ensures r.None? <==> forall f :: f in fields ==> Clean(v, f) != column
  {
    if |fields| == 0 then None
    else if Clean(v, fields[0]) == column then Some(fields[0])
    else SourceField(v, fields[1..], column)
  }

  /**
   * mapped_db_columns with the field each one is filled from: the data columns, in order,
   * that some source field cleans to, paired with the first such field (a field named ""
   * is falsy and maps nothing).
   */
  function Mapping(v: Variant, fields: seq<string>, data: seq<string>): (r: seq<(string, string)>)
    ensures |r| <= |data|
    ensures forall k :: 0 <= k < |r| ==>
      r[k].0 in data && r[k].1 in fields && r[k].1 != "" && Clean(v, r[k].1) == r[k].0
  {
    if |data| == 0 then []
    else
      var p := Mapping(v, fields, data[..|data| - 1]);
      var c := data[|data| - 1];
      var sf := SourceField(v, fields, c);
      if sf.Some? && sf.value != "" then p + [(c, sf.value)] else p
  }

  function FieldNames(props: seq<(string, string)>): (r: seq<string>)
    ensures |r| == |props|
    ensures forall i :: 0 <= i < |props| ==> r[i] == props[i].0
  {
    seq(|props|, i requires 0 <= i < |props| => props[i].0)
  }

  function Columns(mapping: seq<(string, string)>): (r: seq<string>)
    ensures |r| == |mapping|
    ensures forall k :: 0 <= k < |mapping| ==> r[k] == mapping[k].0
  {
    seq(|mapping|, k requires 0 <= k < |mapping| => mapping[k].0)
  }

  /** The INSERT statement: its target, its column list and one placeholder per column. */
  datatype InsertStatement = InsertStatement(table: string, columns: seq<string>, placeholders: seq<string>)

  function GeomPlaceholder(srid: int): string {
    "ST_GeomFromText(%s, " + IntToString(srid) + ")"
  }

  function InsertOf(v: Variant, table: string, mapping: seq<(string, string)>, srid: int): InsertStatement {
    InsertStatement(
      if v.Pipeline? then table else "public." + table,
      ["geom", "tile_code"] + Columns(mapping),
      [GeomPlaceholder(srid), "%s"] + seq(|mapping|, k requires 0 <= k < |mapping| => "%s"))
  }

  /** The statement's text, with the layout whitespace normalised to single spaces. */
  function InsertSql(s: InsertStatement): string {
    "INSERT INTO " + s.table + " (" + Join(", ", s.columns) + ") VALUES (" + Join(", ", s.placeholders) + ")"
  }

  /** One parameter tuple: None is bound as NULL. */
  type Row = seq<Option<string>>

  /** The parameter bound for one attribute: None stays NULL, anything else becomes text. */
  function BoundValue(v: Option<Value>, decodeUtf8: seq<bv8> -> string): Option<string> {
    if v.None? then None else Some(InsertText(v.value, decodeUtf8))
  }

  /** The tuple of one accepted feature: its WKT, the tile code, then one value per mapped column. */
  function RowOf<G>(f: Feature<G>, wkt: string, tileCode: string, mapping: seq<(string, string)>,
                    decodeUtf8: seq<bv8> -> string): (r: Row)
    ensures |r| == 2 + |mapping|
    ensures r[0] == Some(wkt) && r[1] == Some(tileCode)
    ensures forall k :: 0 <= k < |mapping| ==> r[2 + k] == BoundValue(Attribute(f, mapping[k].1), decodeUtf8)
  {
    [Some(wkt), Some(tileCode)]
      + seq(|mapping|, k requires 0 <= k < |mapping| => BoundValue(Attribute(f, mapping[k].1), decodeUtf8))
  }

  // ---------------------------------------------------------------------------
  // Geometry gating and the batch loop

  /**
   * shapely as seen by the loop: shape() of a geometry mapping (None when it raises),
   * is_valid, buffer(0) and the WKT text.
   */
  datatype Shapely<!G> = Shapely(shape: G -> Option<G>, isValid: G -> bool, buffer0: G -> G, wkt: G -> string)

  /** What the loop does with one feature's geometry. */
  datatype Gate = NoGeometry | Rejected | Accepted(wkt: string)

  function GateOf<G>(ops: Shapely<G>, geometry: Option<G>, skipInvalid: bool): Gate {
    if geometry.None? then NoGeometry
    else
      var parsed := ops.shape(geometry.value);
      if parsed.None? then Rejected
      else if ops.isValid(parsed.value) then Accepted(ops.wkt(parsed.value))
      else if !skipInvalid then Rejected
      else
        var repaired := ops.buffer0(parsed.value);
        if ops.isValid(repaired) then Accepted(ops.wkt(repaired)) else Rejected
  }

  /** The external effects: shapely, the UTF-8 decoder, and whether the n-th executemany commits. */
  datatype Oracles<!G> = Oracles(ops: Shapely<G>, decodeUtf8: seq<bv8> -> string, insertOk: nat -> bool)

  /** What stays fixed during one layer's loop. */
  datatype Settings = Settings(tileCode: string, mapping: seq<(string, string)>, batchSize: int, skipInvalid: bool)

  /**
   * The loop's counters: features read, rows committed, errors, features without geometry,
   * the pending batch, the number of executemany calls so far and the committed rows.
   */
  datatype ImportState = ImportState(
    processed: nat,
    count: nat,
    errors: nat,
    noGeometry: nat,
    batch: seq<Row>,
    flushes: nat,
    committed: seq<Row>)

  const Start := ImportState(0, 0, 0, 0, [], 0, [])

  /** executemany of the pending batch: commit adds it to count, rollback adds its size to the errors. */
  function Flush(s: ImportState, insertOk: nat -> bool): (r: ImportState)
    ensures r.batch == [] && r.flushes == s.flushes + 1
    ensures r.processed == s.processed && r.noGeometry == s.noGeometry
    ensures r.count + r.errors == s.count + s.errors + |s.batch|
    ensures insertOk(s.flushes) ==> r.committed == s.committed + s.batch && r.errors == s.errors
    ensures !insertOk(s.flushes) ==> r.committed == s.committed && r.count == s.count
  {
    if insertOk(s.flushes) then
      s.(count := s.count + |s.batch|, committed := s.committed + s.batch, batch := [], flushes := s.flushes + 1)
    else
      s.(errors := s.errors + |s.batch|, batch := [], flushes := s.flushes + 1)
  }

  /** One iteration of `for feature in src`. */
  function FeatureStep<G>(s: ImportState, f: Feature<G>, cfg: Settings, o: Oracles<G>): ImportState {
    var s1 := s.(processed := s.processed + 1);
    var g := GateOf(o.ops, f.geometry, cfg.skipInvalid);
    if g.NoGeometry? then s1.(noGeometry := s1.noGeometry + 1)
    else if g.Rejected? then s1.(errors := s1.errors + 1)
    else
      var b := s1.batch + [RowOf(f, g.wkt, cfg.tileCode, cfg.mapping, o.decodeUtf8)];
      if |b| >= cfg.batchSize then Flush(s1.(batch := b), o.insertOk) else s1.(batch := b)
  }

  /** The counters after the loop has read the features `fs`. */
  function ImportFold<G>(fs: seq<Feature<G>>, cfg: Settings, o: Oracles<G>): ImportState {
    if |fs| == 0 then Start
    else FeatureStep(ImportFold(fs[..|fs| - 1], cfg, o), fs[|fs| - 1], cfg, o)
  }

  /** `if batch:` after the loop. */
  function Finish(s: ImportState, insertOk: nat -> bool): ImportState {
    if |s.batch| > 0 then Flush(s, insertOk) else s
  }

  function ImportRun<G>(fs: seq<Feature<G>>, cfg: Settings, o: Oracles<G>): ImportState {
    Finish(ImportFold(fs, cfg, o), o.insertOk)
  }

  /** The result of one call: the count returned, the statement used and the rows it committed. */
  datatype ImportOutcome = ImportOutcome(count: nat, insert: Option<InsertStatement>, committed: seq<Row>)

  /**
   * One layer into `table`, whose catalog columns are `columns` (None for `layer`: opening it
   * raised, and the call returns 0).
   */
  function LayerImportOf<G>(v: Variant, table: string, columns: seq<string>, layer: Option<Layer<G>>,
                            tileCode: string, srid: int, batchSize: int, skipInvalid: bool,
                            o: Oracles<G>): ImportOutcome
  {
    if layer.None? then ImportOutcome(0, None, [])
    else
      var l := layer.value;
      var mapping := Mapping(v, FieldNames(l.properties), DataColumns(columns, Excluded(v)));
      var r := ImportRun(l.features, Settings(tileCode, mapping, batchSize, skipInvalid), o);
      ImportOutcome(r.count, Some(InsertOf(v, table, mapping, srid)), r.committed)
  }

  lemma ImportFoldNext<G>(fs: seq<Feature<G>>, i: nat, cfg: Settings, o: Oracles<G>)
    requires i < |fs|
    ensures ImportFold(fs[..i + 1], cfg, o) == FeatureStep(ImportFold(fs[..i], cfg, o), fs[i], cfg, o)
  {
    assert fs[..i + 1][..i] == fs[..i];
  }

  lemma MappingNext(v: Variant, fields: seq<string>, data: seq<string>, j: nat)
    requires j < |data|
    ensures var sf := SourceField(v, fields, data[j]);
      Mapping(v, fields, data[..j + 1])
        == Mapping(v, fields, data[..j]) + (if sf.Some? && sf.value != "" then [(data[j], sf.value)] else [])
  {
    assert data[..j + 1][..j] == data[..j];
  }

  // ---------------------------------------------------------------------------
  // The loops

  /** The inner `for gdb_name, db_name in field_mapping.items()` search with its break. */
  method FindSourceField(v: Variant, fields: seq<string>, column: string) returns (found: Option<string>)
    ensures found == SourceField(v, fields, column)
  {
    found := None;
    var i := 0;
    while i < |fields|
      invariant 0 <= i <= |fields|
      invariant SourceField(v, fields, column) == SourceField(v, fields[i..], column)
    {
      assert fields[i..][1..] == fields[i + 1..];
      if Clean(v, fields[i]) == column {
        found := Some(fields[i]);
        return;
      }
      i := i + 1;
    }
  }

  /** The mapping loop over data_columns. */
  method BuildMapping(v: Variant, fields: seq<string>, data: seq<string>) returns (mapping: seq<(string, string)>)
    ensures mapping == Mapping(v, fields, data)
  {
    mapping := [];
    var j := 0;
    while j < |data|
      invariant 0 <= j <= |data|
      invariant mapping == Mapping(v, fields, data[..j])
    {
      MappingNext(v, fields, data, j);
      var sf := FindSourceField(v, fields, data[j]);
      if sf.Some? && sf.value != "" {
        mapping := mapping + [(data[j], sf.value)];
      }
      j := j + 1;
    }
    assert data[..|data|] == data;
  }

  /** The `if len(batch) >= batch_size` block and the final `if batch:` flush. */
  method FlushBatch(s: ImportState, insertOk: nat -> bool) returns (r: ImportState)
    ensures r == Flush(s, insertOk)
  {
    r := s;
    if insertOk(r.flushes) {
      r := r.(count := r.count + |r.batch|, committed := r.committed + r.batch);
    } else {
      r := r.(errors := r.errors + |r.batch|);
    }
    r := r.(batch := [], flushes := r.flushes + 1);
  }

  /** The body of the feature loop. */
  method ImportFeature<G>(s: ImportState, f: Feature<G>, cfg: Settings, o: Oracles<G>) returns (r: ImportState)
    ensures r == FeatureStep(s, f, cfg, o)
  {
    r := s.(processed := s.processed + 1);
    var g := GateOf(o.ops, f.geometry, cfg.skipInvalid);
    if g.NoGeometry? {
      r := r.(noGeometry := r.noGeometry + 1);
      return;
    }
    if g.Rejected? {
      r := r.(errors := r.errors + 1);
      return;
    }
    var row := RowOf(f, g.wkt, cfg.tileCode, cfg.mapping, o.decodeUtf8);
    r := r.(batch := r.batch + [row]);
    if |r.batch| >= cfg.batchSize {
      r := FlushBatch(r, o.insertOk);
    }
  }

  /** import_layer_data / _import_layer once the table is in place. */
  method ImportLayerData<G>(v: Variant, table: string, columns: seq<string>, layer: Option<Layer<G>>,
                            tileCode: string, srid: int, batchSize: int, skipInvalid: bool,
                            o: Oracles<G>) returns (out: ImportOutcome)
    ensures out == LayerImportOf(v, table, columns, layer, tileCode, srid, batchSize, skipInvalid, o)
  {
    if layer.None? {
      return ImportOutcome(0, None, []);
    }
    var l := layer.value;
    var data := DataColumns(columns, Excluded(v));
    var mapping := BuildMapping(v, FieldNames(l.properties), data);
    var insert := InsertOf(v, table, mapping, srid);
    var cfg := Settings(tileCode, mapping, batchSize, skipInvalid);
    var fs := l.features;
    var s := Start;
    var i := 0;
    while i < |fs|
      invariant 0 <= i <= |fs|
      invariant s == ImportFold(fs[..i], cfg, o)
    {
      ImportFoldNext(fs, i, cfg, o);
      s := ImportFeature(s, fs[i], cfg, o);
      i := i + 1;
    }
    assert fs[..|fs|] == fs;
    if |s.batch| > 0 {
      s := FlushBatch(s, o.insertOk);
    }
    out := ImportOutcome(s.count, Some(insert), s.committed);
  }

  // ---------------------------------------------------------------------------
  // Properties

  function MaxOne(n: int): int { if n < 1 then 1 else n }

  /** The loop's invariant: every feature read is committed, an error, geometry-less or pending. */
  predicate Balanced(s: ImportState, cfg: Settings) {
    && s.count + s.errors + s.noGeometry + |s.batch| == s.processed
    && |s.committed| == s.count
    && |s.batch| < MaxOne(cfg.batchSize)
    && (forall k :: 0 <= k < |s.batch| ==> |s.batch[k]| == 2 + |cfg.mapping|)
    && (forall k :: 0 <= k < |s.committed| ==> |s.committed[k]| == 2 + |cfg.mapping|)
  }

  lemma FeatureStepBalanced<G>(s: ImportState, f: Feature<G>, cfg: Settings, o: Oracles<G>)
    requires Balanced(s, cfg)
    ensures Balanced(FeatureStep(s, f, cfg, o), cfg)
    ensures FeatureStep(s, f, cfg, o).processed == s.processed + 1
  {
    var g := GateOf(o.ops, f.geometry, cfg.skipInvalid);
    if g.Accepted? {
      var s1 := s.(processed := s.processed + 1);
      var row := RowOf(f, g.wkt, cfg.tileCode, cfg.mapping, o.decodeUtf8);
      var b := s1.batch + [row];
      if |b| >= cfg.batchSize {
        var r := Flush(s1.(batch := b), o.insertOk);
        assert forall k :: 0 <= k < |r.committed| ==> r.committed[k] in s.committed || r.committed[k] in b;
      }
    }
  }

  lemma {:induction false} ImportFoldBalanced<G>(fs: seq<Feature<G>>, cfg: Settings, o: Oracles<G>)
    ensures Balanced(ImportFold(fs, cfg, o), cfg)
    ensures ImportFold(fs, cfg, o).processed == |fs|
  {
    if |fs| > 0 {
      ImportFoldBalanced(fs[..|fs| - 1], cfg, o);
      FeatureStepBalanced(ImportFold(fs[..|fs| - 1], cfg, o), fs[|fs| - 1], cfg, o);
    }
  }

  /**
   * After each feature the pending batch is shorter than batch_size (empty when batch_size
   * is at most 1), and at the end every feature was either committed, counted as an error
   * or had no geometry; the rows committed all have one value per placeholder.
   */
  lemma ImportAccounting<G>(fs: seq<Feature<G>>, cfg: Settings, o: Oracles<G>)
    ensures |ImportFold(fs, cfg, o).batch| < MaxOne(cfg.batchSize)
    ensures var r := ImportRun(fs, cfg, o);
      && r.batch == []
      && r.processed == |fs|
      && r.count + r.errors + r.noGeometry == |fs|
      && |r.committed| == r.count
      && forall k :: 0 <= k < |r.committed| ==> |r.committed[k]| == 2 + |cfg.mapping|
  {
    ImportFoldBalanced(fs, cfg, o);
    var s := ImportFold(fs, cfg, o);
    if |s.batch| > 0 {
      var r := Flush(s, o.insertOk);
      assert forall k :: 0 <= k < |r.committed| ==> r.committed[k] in s.committed || r.committed[k] in s.batch;
    }
  }

  /** The rows of the accepted features, in stream order. */
  function AcceptedRows<G>(fs: seq<Feature<G>>, cfg: Settings, o: Oracles<G>): seq<Row> {
    if |fs| == 0 then []
    else
      var f := fs[|fs| - 1];
      var g := GateOf(o.ops, f.geometry, cfg.skipInvalid);
      AcceptedRows(fs[..|fs| - 1], cfg, o)
        + (if g.Accepted? then [RowOf(f, g.wkt, cfg.tileCode, cfg.mapping, o.decodeUtf8)] else [])
  }

  /** The number of features whose geometry fails to parse or stays invalid. */
  function RejectedCount<G>(fs: seq<Feature<G>>, cfg: Settings, o: Oracles<G>): nat {
    if |fs| == 0 then 0
    else
      RejectedCount(fs[..|fs| - 1], cfg, o)
        + (if GateOf(o.ops, fs[|fs| - 1].geometry, cfg.skipInvalid).Rejected? then 1 else 0)
  }

  lemma {:induction false} ImportFoldAllCommit<G>(fs: seq<Feature<G>>, cfg: Settings, o: Oracles<G>)
    requires forall n :: o.insertOk(n)
    ensures var s := ImportFold(fs, cfg, o);
      s.committed + s.batch == AcceptedRows(fs, cfg, o) && s.errors == RejectedCount(fs, cfg, o)
  {
    if |fs| > 0 {
      ImportFoldAllCommit(fs[..|fs| - 1], cfg, o);
      var s := ImportFold(fs[..|fs| - 1], cfg, o);
      var f := fs[|fs| - 1];
      var g := GateOf(o.ops, f.geometry, cfg.skipInvalid);
      if g.Accepted? {
        var row := RowOf(f, g.wkt, cfg.tileCode, cfg.mapping, o.decodeUtf8);
        assert s.committed + (s.batch + [row]) == (s.committed + s.batch) + [row];
      }
    }
  }

  /** When every executemany commits, exactly the accepted features are inserted, in order. */
  lemma AllCommitsInsertAccepted<G>(fs: seq<Feature<G>>, cfg: Settings, o: Oracles<G>)
    requires forall n :: o.insertOk(n)
    ensures var r := ImportRun(fs, cfg, o);
      r.committed == AcceptedRows(fs, cfg, o) && r.errors == RejectedCount(fs, cfg, o)
  {
    ImportFoldAllCommit(fs, cfg, o);
  }

  /** A feature without geometry only advances `processed`: nothing is counted and nothing is batched. */
  lemma NoGeometryIsNeutral<G>(s: ImportState, f: Feature<G>, cfg: Settings, o: Oracles<G>)
    requires f.geometry.None?
    ensures var r := FeatureStep(s, f, cfg, o);
      r.count == s.count && r.errors == s.errors && r.batch == s.batch && r.committed == s.committed
      && r.processed == s.processed + 1
  {
  }

  /**
   * A geometry is accepted exactly when shape() succeeds and it is valid, or skip_invalid
   * is set and buffer(0) makes it valid; the WKT written is that of the geometry accepted.
   */
  lemma GateRules<G>(ops: Shapely<G>, raw: G, skipInvalid: bool)
    ensures var g := GateOf(ops, Some(raw), skipInvalid);
      var p := ops.shape(raw);
      && !g.NoGeometry?
      && (g.Accepted? <==> p.Some? && (ops.isValid(p.value) || (skipInvalid && ops.isValid(ops.buffer0(p.value)))))
      && (g.Accepted? && ops.isValid(p.value) ==> g.wkt == ops.wkt(p.value))
      && (g.Accepted? && !ops.isValid(p.value) ==> g.wkt == ops.wkt(ops.buffer0(p.value)))
  {
  }

  lemma CleanNonEmpty(v: Variant, field: string)
    requires field != ""
    ensures Clean(v, field) != ""
  {
    var u := Underscored(if v.Pipeline? then Lower(field) else field, true);
    assert |u| > 0;
  }

  lemma MappingColumnsStep(v: Variant, fields: seq<string>, data: seq<string>)
    requires |data| > 0
    ensures var d := data[|data| - 1];
      var sf := SourceField(v, fields, d);
      Columns(Mapping(v, fields, data))
        == Columns(Mapping(v, fields, data[..|data| - 1])) + (if sf.Some? && sf.value != "" then [d] else [])
  {
  }

  /** When a non-empty field cleans to `c`, so does a non-empty first one. */
  lemma SourceFieldNonEmpty(v: Variant, fields: seq<string>, c: string, f: string)
    requires f in fields && f != "" && Clean(v, f) == c
    ensures SourceField(v, fields, c).Some? && SourceField(v, fields, c).value != ""
  {
    CleanNonEmpty(v, f);
  }

  /**
   * A data column is mapped exactly when some non-empty source field cleans to it, and it
   * is filled from the first such field.
   */
  lemma {:induction false} MappingComplete(v: Variant, fields: seq<string>, data: seq<string>, c: string)
    ensures c in Columns(Mapping(v, fields, data)) <==>
      c in data && exists f :: f in fields && f != "" && Clean(v, f) == c
  {
    if |data| > 0 {
      var p := data[..|data| - 1];
      var d := data[|data| - 1];
      assert data == p + [d];
      MappingComplete(v, fields, p, c);
      MappingColumnsStep(v, fields, data);
      if c == d && exists f :: f in fields && f != "" && Clean(v, f) == c {
        var f :| f in fields && f != "" && Clean(v, f) == c;
        SourceFieldNonEmpty(v, fields, c, f);
      }
    }
  }

  /** The statement's columns: geom and tile_code, then the mapped columns, one placeholder each. */
  lemma InsertShape(v: Variant, table: string, mapping: seq<(string, string)>, srid: int)
    requires forall k :: 0 <= k < |mapping| ==> mapping[k].0 !in Excluded(v)
    ensures var ins := InsertOf(v, table, mapping, srid);
      && |ins.columns| == |ins.placeholders| == 2 + |mapping|
      && ins.columns[..2] == ["geom", "tile_code"]
      && (forall k :: 2 <= k < |ins.columns| ==> ins.columns[k] !in Excluded(v))
  {
    var ins := InsertOf(v, table, mapping, srid);
    assert ins.columns == ["geom", "tile_code"] + Columns(mapping);
    forall k | 2 <= k < |ins.columns| ensures ins.columns[k] !in Excluded(v) {
      assert ins.columns[k] == Columns(mapping)[k - 2] == mapping[k - 2].0;
    }
  }

  /** Every tuple matches the statement: one value per column, one column per placeholder. */
  lemma RowFitsInsert<G>(v: Variant, table: string, columns: seq<string>, l: Layer<G>, tileCode: string,
                         srid: int, batchSize: int, skipInvalid: bool, o: Oracles<G>)
    ensures var out := LayerImportOf(v, table, columns, Some(l), tileCode, srid, batchSize, skipInvalid, o);
      && out.insert.Some?
      && |out.insert.value.columns| == |out.insert.value.placeholders|
      && out.insert.value.columns[..2] == ["geom", "tile_code"]
      && (forall k :: 2 <= k < |out.insert.value.columns| ==> out.insert.value.columns[k] !in Excluded(v))
      && |out.committed| == out.count
      && forall k :: 0 <= k < |out.committed| ==> |out.committed[k]| == |out.insert.value.placeholders|
  {
    var data := DataColumns(columns, Excluded(v));
    var mapping := Mapping(v, FieldNames(l.properties), data);
    forall k | 0 <= k < |mapping| ensures mapping[k].0 !in Excluded(v) {
      assert mapping[k].0 in data;
    }
    InsertShape(v, table, mapping, srid);
    ImportAccounting(l.features, Settings(tileCode, mapping, batchSize, skipInvalid), o);
  }
}
