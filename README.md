# A verified model of the tile-import pipeline

The repository loads a family of geodatabase "tiles" into one shared PostGIS schema. Each tile is
a file geodatabase such as `F49.gdb`, covering one sheet of the 1:1,000,000 map grid. Rows from
every tile share the same tables and are told apart by a `tile_code` column.

The Dafny model has two parts, and every step in it is proved against a specification.

The pipeline:
- how layer, field and geodatabase names become PostgreSQL identifiers and tile codes;
- the three column-type decision tables;
- the per-field and per-layer profiling passes over a reference tile;
- the table design and the CREATE TABLE text of the parse script;
- the classification of each layer against the catalog when the unified schema is created;
- the importer class's table creation;
- the layer import loop, with its field-to-column mapping, geometry gating and insert batches;
- the per-tile layer loops of the two importers;
- the three-step setup script and its fallback logic.

The support services beside the pipeline:
- the SELECT guard, the query builder, the tile-code listing and the import defaults of the data importer;
- the table-name validator and its cache;
- the in-memory path of the cache manager;
- the performance monitor;
- the field-description document generator.

Everything outside the programs' own logic is a parameter of the model:
- the database, given as a catalog value and answer functions;
- fiona and shapely, given as feature sequences and geometry oracles;
- the UTF-8 decoder;
- the clock;
- the number formatting of f-strings.

Where the code loops and updates variables, the model is a method with loop invariants. Each such
method is proved equal to a specification function, and the lemmas are stated about that function.
The objects that keep state are classes whose methods state their whole new state:
- the catalog;
- the table validator's cache;
- the cache manager's two dictionaries;
- the monitor's statistics and its queue.

Where the source does something its authors evidently did not intend (see "## Findings"), the
model holds both versions, and each row below says which one a member states. The layer step of
the unified schema, full_setup and the create_sql text of the table design follow the code as
written. The table validator's class, the importer's field lookup and the type fallback of a
designed data column use the corrected definition.

## Model

| member | source | states |
|---|---|---|
| Identifiers.Underscored | scripts/import_all_tiles.py:29 | the same length; '-', '.' and (with `spaces`) ' ' become '_', every other character is kept |
| Identifiers.PrefixAndTruncate | scripts/import_all_tiles.py:30-33 | at most max_length long, never starts with a digit, and made only of '_' and characters of the input |
| Identifiers.CleanIdentifier | scripts/import_all_tiles.py:27-34 | clean_identifier: at most 63 characters, no '-', '.', ' ' or upper-case letter, no leading digit |
| Identifiers.CleanIdentifierFixedPoints | scripts/import_all_tiles.py:27-34 | a name is left unchanged exactly when it is already clean |
| Identifiers.CleanIdentifierIdempotent | scripts/import_all_tiles.py:27-34 | cleaning twice gives the same result as cleaning once |
| Identifiers.GetTableName | scripts/import_all_tiles.py:37-39 | get_table_name: the same length, and each character is its lower-case form: an ASCII upper-case letter moves down by 32, every other character is kept |
| Identifiers.ImporterCleanIdentifier | core/gdb_importer.py:220-227 | _clean_identifier: the same length and digit rules, no separator, and the case is kept |
| Identifiers.ImporterCleanOfLowered | core/gdb_importer.py:217-218 | the importer's cleaner applied to the lowered name is the pipeline's clean_identifier |
| Identifiers.DesignColumnName | scripts/parse_tile_schema.py:361-370 | a field column name is never id/geom/tile_code, has no separator or upper-case letter and no leading digit, and is the clean name when no reserved name clashes |
| Identifiers.ParseTableName | scripts/parse_tile_schema.py:295-305 | the default table name: at most 63 characters, no leading digit, no '-', '.' or upper-case letter |
| Identifiers.ParseTableNameIsCleanSegment | scripts/parse_tile_schema.py:295-305 | without spaces it is clean_identifier of the last '_' segment |
| Identifiers.ParseTableNameKeepsSpaces | scripts/parse_tile_schema.py:301 | a space survives: "A B" gives "a b" |
| Identifiers.TileRule | scripts/import_all_tiles.py:45-47 | the result is an F/G code with two digits or the whole name, and is always a prefix of the name |
| Identifiers.TileRuleOfPrefixedName | scripts/import_all_tiles.py:45-46 | a name that starts with a tile code gives that code |
| Identifiers.TileRuleOfOtherName | scripts/import_all_tiles.py:47 | any other name is returned unchanged |
| Identifiers.TileRuleIdempotent | scripts/import_all_tiles.py:45-47 | a derived tile code gives itself |
| Identifiers.ExtractTileCode | scripts/import_all_tiles.py:42-47 | extract_tile_code: a tile code or the name with ".gdb" removed, always a prefix of it |
| Identifiers.ExtractTileCodeOfGdbName | scripts/import_all_tiles.py:42-47 | for "stem.gdb" with no other dot, the tile rule is applied to the stem |
| Identifiers.ExtractTileCodeExample | scripts/import_all_tiles.py:42-47 | "F49_2021.gdb" gives "F49" and "sample.gdb" gives "sample" |
| Identifiers.ImporterTileCode | core/gdb_importer.py:178-195 | specification of _extract_tile_code: the tile rule under the "auto" pattern (the default), otherwise the name unchanged; the tile rule's properties are TileRuleOfPrefixedName, TileRuleOfOtherName and TileRuleIdempotent |
| Identifiers.ImporterTableName | core/gdb_importer.py:206-218 | _get_table_name: the mapped table_name of the upper-cased last segment, otherwise the cleaned lower-case layer name |
| TypeInference.BaseType | scripts/create_unified_schema.py:24-31 | the base type, lower-cased and cut at the first ':', contains no ':' |
| TypeInference.MappedType | scripts/create_unified_schema.py:34-48 | the shared type table never yields a VARCHAR |
| TypeInference.ImporterPgType | core/gdb_importer.py:570-592 | _get_pg_field_type never yields a VARCHAR |
| TypeInference.ImporterPgTypeIgnoresWidth | core/gdb_importer.py:587-592 | "base:width" maps like "base" |
| TypeInference.BaseTypeOfPlainBase | core/gdb_importer.py:587-592 | a lower-case base with no ':' is its own base type |
| TypeInference.ImporterPgTypeInt64 | core/gdb_importer.py:575 | int64 maps to BIGINT |
| TypeInference.ImporterPgTypeFloat32 | core/gdb_importer.py:577 | float32 maps to REAL |
| TypeInference.ImporterPgTypeStrWidth | core/gdb_importer.py:579-592 | str:80 maps to TEXT |
| TypeInference.LengthTier | scripts/create_unified_schema.py:72-82 | a chosen VARCHAR is the smallest of 50/100/255/500 that is at least n; TEXT only above 500 |
| TypeInference.DeclaredWidthTier | scripts/create_unified_schema.py:54-66 | the width itself up to 50; above that the smallest fitting of 100/255/500; TEXT only above 500 |
| TypeInference.ParseWidthTier | scripts/parse_tile_schema.py:70-79 | VARCHAR(n) up to 255, VARCHAR(1000) up to 1000, TEXT exactly above 1000 |
| TypeInference.DeclaredWidth | scripts/create_unified_schema.py:54-56 | a width is only used when the text after ':' is non-empty and int() accepts it |
| TypeInference.UnifiedPgType | scripts/create_unified_schema.py:20-84 | decision table of map_field_type_to_postgresql: a non-text type keeps the table type; a text type uses the declared-width tier, else the max_length tier when positive, else TEXT; its partner UnifiedPgTypeFitsProfile proves a chosen VARCHAR holds max_length |
| TypeInference.UnifiedPgTypeFitsProfile | scripts/create_unified_schema.py:71-82 | without a declared width, a chosen VARCHAR is at least max_length wide |
| TypeInference.LongestSample | scripts/parse_tile_schema.py:85 | the length of the longest sample, which is positive; None exactly when every sample is empty |
| TypeInference.ParseSchemaPgType | scripts/parse_tile_schema.py:14-98 | the ID rule (BIGINT for integer bases, else VARCHAR(50) or VARCHAR(100) by the first sample), the table type, the width tiers; None exactly when max() over no non-empty sample raises |
| TypeInference.ParseSchemaPgTypeFitsSamples | scripts/parse_tile_schema.py:84-96 | a VARCHAR chosen from the samples holds every sample |
| TypeInference.IntegerIdIsBigInt | scripts/parse_tile_schema.py:35-38 | an ID field of type int32 or int64 is BIGINT whatever its samples |
| FieldProfile.AddUnique | scripts/parse_tile_schema.py:150 | adding a str() form to the set: the form is in the result, nothing is lost, nothing else is added, at most one more element |
| FieldProfile.TallyOfNext | scripts/parse_tile_schema.py:142-185 | reading one more value applies one more step of the loop |
| FieldProfile.TallyStep | scripts/parse_tile_schema.py:145-185 | specification of one loop turn: None counts a null; any other value counts as not null and adds its str() form; a number sets the type flags and the running extremes, a string the length extremes, anything else only max_length of its str() |
| FieldProfile.TallyOf | scripts/parse_tile_schema.py:142-185 | specification of the value loop: TallyStep applied to the values in reading order from the empty tally |
| FieldProfile.CountsStep | scripts/parse_tile_schema.py:146-150 | one step keeps null + not-null equal to the values read |
| FieldProfile.TallyCounts | scripts/parse_tile_schema.py:146-150 | null_count + not_null_count is the number of values read; no more distinct forms than non-null values; no nulls exactly when null_count is 0 |
| FieldProfile.UniqueStep | scripts/parse_tile_schema.py:150 | one step keeps the distinct forms listed once each |
| FieldProfile.TallyUnique | scripts/parse_tile_schema.py:150 | the distinct forms are exactly the str() forms of the non-null values, each listed once |
| FieldProfile.MinStep | scripts/parse_tile_schema.py:161-162 | one numeric value keeps min_value the least numeric value seen |
| FieldProfile.MaxStep | scripts/parse_tile_schema.py:163-164 | one numeric value keeps max_value the greatest numeric value seen |
| FieldProfile.ExtendNonNumeric | scripts/parse_tile_schema.py:166-185 | a non-numeric value leaves the numeric extremes as they were |
| FieldProfile.RangeStep | scripts/parse_tile_schema.py:153-164 | one step keeps min_value and max_value the extremes of the numeric values |
| FieldProfile.TallyRange | scripts/parse_tile_schema.py:153-164 | min_value and max_value are present exactly when some value is numeric (bools included), and are the least and greatest of them |
| FieldProfile.TallyMinAtMostMax | scripts/parse_tile_schema.py:161-164 | once a numeric value has been seen, min_value <= max_value |
| FieldProfile.LengthsStep | scripts/parse_tile_schema.py:166-185 | one step keeps the length bounds |
| FieldProfile.TallyLengths | scripts/parse_tile_schema.py:166-185 | max_length bounds every string and every other non-numeric str() form; min_length is the shortest string and is set exactly when a string occurs |
| FieldProfile.TallyMinLengthAtMostMax | scripts/parse_tile_schema.py:171-174 | once a string has been seen, min_length <= max_length |
| FieldProfile.SampleValues | scripts/parse_tile_schema.py:201 | at most 20 of the distinct forms, in sorted order |
| FieldProfile.AnalyzeFieldCompletely | scripts/parse_tile_schema.py:101-228 | the loop over the values computes the profile ProfileOf, and an unreadable layer gives the error entry |
| FieldProfile.ProfileOf | scripts/parse_tile_schema.py:101-228 | specification of analyze_field_completely: a layer that cannot be opened gives the error entry with an empty tally; otherwise the tally of all values, finished with percentages, samples, type and constraints |
| FieldProfile.SampleValuesFacts | scripts/parse_tile_schema.py:201-202 | at most 20 samples, sorted, each the str() of a non-null value; unique_count is the number of distinct forms |
| FieldProfile.PercentageZero | scripts/parse_tile_schema.py:188-189 | the percentage is 0 exactly when there are no records or no part |
| FieldProfile.PercentageFull | scripts/parse_tile_schema.py:203 | the percentage is 100 exactly when the part is all of a non-empty total |
| FieldProfile.NotNullIn | scripts/parse_tile_schema.py:212-213 | NOT NULL is listed exactly when the null percentage is 0 |
| FieldProfile.UniqueIn | scripts/parse_tile_schema.py:215-216 | UNIQUE is listed exactly when the unique percentage is 100 and some value is not null |
| FieldProfile.CheckIn | scripts/parse_tile_schema.py:219-221 | a CHECK is listed exactly when the field is numeric with min_value >= 0, and its bound is min_value |
| FieldProfile.ProfileParts | scripts/parse_tile_schema.py:188-221 | the profile's percentages come from the tally, and its constraints from the rules when no error occurred |
| FieldProfile.NotNullRule | scripts/parse_tile_schema.py:188-213 | NOT NULL is recommended exactly when no value is null, an empty layer included |
| FieldProfile.UniqueRule | scripts/parse_tile_schema.py:202-216 | UNIQUE is recommended exactly when the distinct forms number the records, and then no value is null |
| FieldProfile.CheckRule | scripts/parse_tile_schema.py:219-221 | a CHECK is recommended exactly when some value is numeric and none is negative; its bound is one of the values |
| FieldProfile.AllEmptySamplesIsError | scripts/parse_tile_schema.py:84-226 | when every sample is empty, the failure of max() becomes an error entry with no type and no constraints |
| LayerProfile.GeometryCount | scripts/parse_tile_schema.py:276-280 | the number of features with a geometry is at most the number of features |
| LayerProfile.FieldProfiles | scripts/parse_tile_schema.py:266-271 | one entry per schema property, in schema order, each profiled over the whole layer |
| LayerProfile.CountFeatures | scripts/parse_tile_schema.py:258-261 | the counting loop gives the number of features |
| LayerProfile.ProfileFields | scripts/parse_tile_schema.py:266-271 | the field loop profiles every schema property over the whole layer and yields FieldProfiles, in schema order |
| LayerProfile.CountGeometries | scripts/parse_tile_schema.py:275-280 | the geometry loop counts the features with a geometry, and the two counters add up to the number of features |
| LayerProfile.AnalyzeLayerCompletely | scripts/parse_tile_schema.py:231-288 | the counting, profiling and geometry loops compute LayerInfoOf; has_geometry + null_geometry_count = total_records; an unreadable layer gives the error entry |
| LayerProfile.LayerInfoOf | scripts/parse_tile_schema.py:231-288 | specification of analyze_layer_completely: the error entry for a layer that cannot be opened; otherwise the geometry type, the feature count, one profile per field, and the geometry and null-geometry counts |
| LayerProfile.FieldProfilesCoverLayer | scripts/parse_tile_schema.py:254-271 | field_count is the number of properties; every field is profiled over total_records features, with null + not-null = total_records, and an error entry only when every sample is empty |
| LayerSampling.Inspected | scripts/analyze_gdb_schema.py:42-59 | the loop reads at most sample_size features, at least one when the layer has any, and never more than the layer has |
| LayerSampling.StatisticsOf | scripts/analyze_gdb_schema.py:62-68 | one statistics entry per schema field, in schema order, built from that field's counters |
| LayerSampling.FieldSampleNext | scripts/analyze_gdb_schema.py:47-56 | reading one more feature applies one more counter step |
| LayerSampling.SampleFeature | scripts/analyze_gdb_schema.py:45-56 | the inner loop moves every field's counters on by the one feature read |
| LayerSampling.AnalyzeLayerSchema | scripts/analyze_gdb_schema.py:14-77 | the sampling loop with its early break computes ReportOf; an unreadable layer gives the error entry |
| LayerSampling.ReportOf | scripts/analyze_gdb_schema.py:14-77 | specification of analyze_layer_schema: the error entry for a layer that cannot be opened; otherwise the geometry type, the schema, and the statistics of the first Inspected features |
| LayerSampling.SummarizeFields | scripts/analyze_gdb_schema.py:62-68 | the summary loop turns each field's counters into its statistics and yields StatisticsOf over the features read |
| LayerSampling.SampleHoldsStep | scripts/analyze_gdb_schema.py:50-56 | one step keeps the counters adding up and the samples few, distinct and seen |
| LayerSampling.FieldSampleHolds | scripts/analyze_gdb_schema.py:50-56 | has_value + null = features read; at most ten distinct samples, each the str() of a value read |
| LayerSampling.InspectedBounds | scripts/analyze_gdb_schema.py:42-70 | total_samples is at most the layer size and at most sample_size, at least one for a non-empty layer, and the whole layer when sample_size covers it |
| LayerSampling.StatisticsFacts | scripts/analyze_gdb_schema.py:54-70 | every field's counters add up to total_samples; null_percentage is null/total; at most ten distinct samples in ascending order, each seen in the features read |
| LayerSampling.UnreadableLayerReport | scripts/analyze_gdb_schema.py:72-75 | a layer that cannot be opened gives the error entry with nothing sampled |
| TableDesign.PgGeometryTypeNames | scripts/parse_tile_schema.py:331-339 | the seven known geometry types map to their upper-case names, and anything else maps to GEOMETRY |
| TableDesign.FieldColumnType | scripts/parse_tile_schema.py:375 | specification of the column type, corrected: the recommended type as it is, TEXT for a profile without one; its partner UnfinishedFieldTypeAsWritten shows where it parts from the code as written |
| TableDesign.ConstraintTexts | scripts/parse_tile_schema.py:376 | one constraint text per recommended constraint, in order |
| TableDesign.FieldColumns | scripts/parse_tile_schema.py:359-394 | one data column per profiled field, in field order, typed with the corrected TEXT fallback |
| TableDesign.FieldColumnsNext | scripts/parse_tile_schema.py:360-394 | each loop turn appends the column of the next field |
| TableDesign.BuildFieldColumns | scripts/parse_tile_schema.py:359-394 | the field loop appends exactly FieldColumns of the profiled fields |
| TableDesign.BuildColumns | scripts/parse_tile_schema.py:319-409 | the appends give exactly the designed column order: id, geom when known, tile_code, the fields, the timestamps |
| TableDesign.ColumnDefs | scripts/parse_tile_schema.py:414-426 | one definition line per column, in column order; each is the name, type and constraints, then "  -- " and the column's description when it has one |
| TableDesign.DesignTableStructure | scripts/parse_tile_schema.py:291-471 | the appends and per-column passes compute DesignOf: table name, description, columns, the full create_sql with its index and comment sections, indexes and constraints |
| TableDesign.RenderColumns | scripts/parse_tile_schema.py:414-469 | the definition lines with their comments, the index statements and the flat constraint list, each built in column order |
| TableDesign.DescriptionNonEmpty | scripts/parse_tile_schema.py:319-408 | a column's description text is empty exactly when the column carries none; every designed description is non-empty |
| TableDesign.RenderColumnComments | scripts/parse_tile_schema.py:449-456 | the column-comment pass gives one COMMENT ON COLUMN per described column, in column order |
| TableDesign.AssembleSql | scripts/parse_tile_schema.py:458-465 | create_sql is the statement, then each of the index, table-comment and column-comment sections whose text is not empty, with its heading |
| TableDesign.DesignOf | scripts/parse_tile_schema.py:291-471 | specification of design_table_structure: the derived or given table name, the description "表 <t> 存储图层 <layer> 的数据", the designed columns, create_sql, the index statements and the flat constraint list |
| TableDesign.CreateTableSql | scripts/parse_tile_schema.py:412-429 | specification of the CREATE TABLE statement: "CREATE TABLE <t> (", a newline, the definition lines joined by ",\n", a newline and ");" |
| TableDesign.FullSql | scripts/parse_tile_schema.py:446-465 | specification of create_sql: the statement, then "\n\n-- 索引\n" and the index statements, "\n\n-- 表注释\n" and COMMENT ON TABLE, "\n\n-- 列注释\n" and the column comments, each section only when not empty |
| TableDesign.FieldColumnTypeAsWritten | scripts/parse_tile_schema.py:375 | specification of the data column's type as written: the recommended type, or the text "None" when the profile holds None |
| TableDesign.DesignColumnsDescribed | scripts/parse_tile_schema.py:319-408 | every designed column carries a description |
| TableDesign.ColumnCommentsAll | scripts/parse_tile_schema.py:449-456 | when every column is described there is one COMMENT ON COLUMN per column, the i-th for the i-th column |
| TableDesign.CreateTableSqlSections | scripts/parse_tile_schema.py:458-465 | a design's create_sql is the statement followed by all three sections, since a design always has indexes, a table comment and column comments; one column comment per column |
| TableDesign.CommasInCommentsAsWritten | scripts/parse_tile_schema.py:414-428 | as written, the ",\n" join puts every separating comma after the column's "  -- " comment: each line but the last is its SQL, the comment, then "," |
| TableDesign.IdLineAsWritten | scripts/parse_tile_schema.py:414-428 | as written, the first line of every design is "    id BIGSERIAL PRIMARY KEY  -- 主键，自动递增的唯一标识符," with the comma inside the comment |
| TableDesign.CorrectedSeparatorsPrecedeComments | scripts/parse_tile_schema.py:414-428 | corrected, each line is its SQL part with its separator, then its comment; without the comments the lines are the SQL parts joined by ",\n" |
| TableDesign.DesignLayout | scripts/parse_tile_schema.py:319-409 | the designed columns: 4 + N (+1 with a known geometry): id, geom with its SRID-4326 subtype, tile_code, the N field columns in order, created_at, updated_at |
| TableDesign.FieldColumnsNamed | scripts/parse_tile_schema.py:369-374 | no designed data column takes a system column's name, each keeps its source field as original_name, and none is indexed |
| TableDesign.IndexStatementsAppend | scripts/parse_tile_schema.py:432-444 | the index statements of two column lists are those of each, concatenated |
| TableDesign.FieldColumnsUnindexed | scripts/parse_tile_schema.py:372-381 | data columns produce no index statement |
| TableDesign.SingleIndexStatement | scripts/parse_tile_schema.py:434-444 | a single column gives its GIST or BTREE statement when it has an index, and nothing otherwise |
| TableDesign.DesignIndexes | scripts/parse_tile_schema.py:432-444 | the index statements are exactly GIST on geom (when designed), then BTREE on tile_code |
| TableDesign.AllConstraintsMembers | scripts/parse_tile_schema.py:469 | a text is in the flat list exactly when some column carries it |
| TableDesign.DesignConstraints | scripts/parse_tile_schema.py:469 | the design's constraint list holds exactly the constraints of its columns |
| TableDesign.CreateTableSqlShape | scripts/parse_tile_schema.py:412-467 | create_sql opens with "CREATE TABLE <name> (" and a newline, and ends with the COMMENT ON COLUMN statement of updated_at |
| TableDesign.UnfinishedFieldTypeAsWritten | scripts/parse_tile_schema.py:375 | as written, a field whose type inference raised is declared with the type "None"; corrected, TEXT |
| UnifiedSchema.UnifiedDataColumns | scripts/create_unified_schema.py:164-194 | one data column per analysed field, in field order, named by the column-name cleaner and typed by the unified type mapping, with no NOT NULL |
| UnifiedSchema.ColumnNames | scripts/create_unified_schema.py:150-198 | the names of the column definitions, one per definition and in the same order |
| UnifiedSchema.CommonIndexCount | scripts/create_unified_schema.py:238-263 | the number of secondary indexes created never exceeds the number of common index fields (gb, name, class, type, rn) |
| UnifiedSchema.CommonPass | scripts/create_unified_schema.py:238-263 | an aborted transaction is the only way the loop comes to raise |
| UnifiedSchema.CommonPassFacts | scripts/create_unified_schema.py:238-263 | the loop raises exactly when a field before the last has a failing index; the transaction ends aborted exactly when some index fails; a loop that does not raise created CommonIndexCount indexes |
| UnifiedSchema.LayerStep | scripts/create_unified_schema.py:109-309 | specification of one layer as written: analysis failure, existing table, failed CREATE, then the committed table kept while a failed geom, tile_code or aborting common index gives an error and a CreateFailed skip, else a created entry; whether a created layer's comment block leaves the transaction aborted is the loop's part |
| UnifiedSchema.LayerStepOf | scripts/create_unified_schema.py:109-309 | specification of one layer in both forms: analysis failure, existing table, failed CREATE, failed geom or tile_code index, then the common-index pass, which as written turns a failing index before the last field into an error and a skip and, best-effort, passes over it |
| UnifiedSchema.SchemaOf | scripts/create_unified_schema.py:87-311 | specification of create_unified_table_schema as written: no extension gives that one error; otherwise the layers in order against a catalog that grows, where a created layer whose comment block fails leaves the transaction aborted and the next analysed layer's existence query raises InFailedSqlTransaction, with the tables created so far kept |
| UnifiedSchema.LoopStep | scripts/create_unified_schema.py:109-290 | specification of one pass of the loop: a layer with an analysis error issues no statement; otherwise, in an aborted transaction, its existence query raises; else the layer step, after which the transaction is aborted exactly when the created layer's comment block failed |
| UnifiedSchema.SchemaCorrectedOf | scripts/create_unified_schema.py:87-311 | specification of create_unified_table_schema with the geom COMMENT guarded like the geom column (also `!= "None"`) |
| UnifiedSchema.SchemaRunOf | scripts/create_unified_schema.py:87-311 | specification of the whole run, with the geom COMMENT guard as written or corrected: no extension gives that one error; otherwise the loop over the layers, ending with its catalog and either the result or the InFailedSqlTransaction of the layer that raised |
| UnifiedSchema.GeomColumnPresent | scripts/create_unified_schema.py:156-221 | the unified columns hold a geom column exactly when the geometry type is known (present, non-empty, neither "Unknown" nor "None") |
| UnifiedSchema.RunFollowsFold | scripts/create_unified_schema.py:109-309 | by induction, a loop that does not raise ends as the layer fold of all layers; one that raises stops at an analysed layer, named in the exception, with the catalog and result of the fold of the layers before it |
| UnifiedSchema.RunRaisesIff | scripts/create_unified_schema.py:109-309 | the loop raises exactly when a layer left the transaction aborted and a later layer is analysed; otherwise it ends aborted exactly when such a layer is followed only by layers with an analysis error |
| UnifiedSchema.SchemaRunRaisesIff | scripts/create_unified_schema.py:96-311 | the run raises exactly when the extension is installed and a created layer whose COMMENT is refused, or (as written) whose geometry type is "None", is followed by an analysed layer |
| UnifiedSchema.SchemaRunFollowsFold | scripts/create_unified_schema.py:109-311 | a run that returns gives the fold of all layers; one that raises names an analysed layer and leaves the catalog the fold of the layers before it made |
| UnifiedSchema.NoneGeometryThenAnalysedRaises | scripts/create_unified_schema.py:125-290 | as written, a created "None"-geometry layer followed by an analysed layer leaves the first table committed and raises InFailedSqlTransaction at the second layer's existence query |
| UnifiedSchema.GuardedCommentsNeverRaise | scripts/create_unified_schema.py:265-290 | corrected, with the geom COMMENT guarded like the column and every COMMENT accepted, the run never raises and returns the fold of all layers |
| UnifiedSchema.CommonIndexes | scripts/create_unified_schema.py:238-263 | the loop over the common fields equals the pass specification: present fields whose index succeeds are counted; a failing index aborts the transaction and the next field's column query raises |
| UnifiedSchema.ClassifyLayer | scripts/create_unified_schema.py:109-309 | one layer changes the catalog and the result exactly as the layer step as written does: analysis failure, existing table, failed CREATE, failed geom or tile_code index, a common-index pass that raised, or created; and it reports the transaction aborted exactly when the layer was created and a COMMENT was refused or the geom COMMENT names a table without a geom column |
| UnifiedSchema.CreateUnifiedTableSchema | scripts/create_unified_schema.py:87-311 | the whole run equals the specification as written: the extension failure returns at once; otherwise the layers are taken in order against a growing catalog, and the first analysed layer after an aborted comment block raises InFailedSqlTransaction |
| UnifiedSchema.FailedSkips | scripts/create_unified_schema.py:302-309 | the count of skipped entries whose creation failed is at most the number of skipped entries |
| UnifiedSchema.AnalysisSkips | scripts/create_unified_schema.py:110-117 | the count of skipped entries caused by a failed analysis is at most the number of skipped entries |
| UnifiedSchema.FailedLayers | scripts/create_unified_schema.py:110 | the count of layers that carry an analysis error is at most the number of layers |
| UnifiedSchema.LayerStepAccounted | scripts/create_unified_schema.py:109-309 | one layer keeps the accounting: one entry per layer, one error per failed creation, one analysis skip per failed analysis |
| UnifiedSchema.EveryLayerClassified | scripts/create_unified_schema.py:109-309 | by induction over the layers, every layer ends in exactly one of tables_created and tables_skipped, and every error belongs to a skipped table |
| UnifiedSchema.SchemaClassifiesLayers | scripts/create_unified_schema.py:96-311 | with the extension installed, a run that returns has created plus skipped equal to the number of layers, errors equal to the failed creations, and analysis skips equal to the failed layers |
| UnifiedSchema.ExtensionUnavailableStopsAll | scripts/create_unified_schema.py:101-107 | when the PostGIS extension cannot be installed, the catalog is unchanged and the result holds only that one error |
| UnifiedSchema.ExistingTablesKept | scripts/create_unified_schema.py:125-142 | tables that already exist are never altered or dropped; the run only adds tables |
| UnifiedSchema.SkippedLayerAddsNothing | scripts/create_unified_schema.py:110-142 | a layer with a failed analysis or an existing table adds no table and no created entry, and adds exactly one skipped entry |
| UnifiedSchema.CreatedTableRecord | scripts/create_unified_schema.py:209-300 | a created table is new, is named by the lower-cased layer name and holds the unified columns; its record counts those columns and at most 2 + 5 indexes, with no error or skip added |
| UnifiedSchema.FailedCommonIndexSkipsLayer | scripts/create_unified_schema.py:243-309 | as written, a layer whose gb index fails is an error and a CreateFailed skip, although its table stays in the catalog |
| UnifiedSchema.BestEffortCreates | scripts/create_unified_schema.py:238-300 | corrected, with the common indexes best-effort, a layer whose table and geom and tile_code indexes succeed is created, with the successful common indexes counted |
| UnifiedSchema.AsWrittenAgreesUnlessAborted | scripts/create_unified_schema.py:238-309 | the step as written and the best-effort step agree exactly when no field before the last has a failing index |
| UnifiedSchema.UnifiedLayout | scripts/create_unified_schema.py:150-198 | the column order is id BIGSERIAL, geom GEOMETRY(GEOMETRY, srid) when the geometry is known, tile_code, the data columns (cleaned, never reserved, no constraints), created_at and updated_at: 4 + fields (+1) columns |
| Database.Catalog.constructor | core/gdb_importer.py:471-482 | the catalog starts as the given map of public tables to their column names |
| Database.Catalog.CreateTable | core/gdb_importer.py:503-505 | CREATE TABLE with unquoted names stores the table and each of its columns under their lower-case folding, and changes no other table |
| Database.Catalog.AddColumn | core/gdb_importer.py:546-549 | ALTER TABLE ... ADD COLUMN appends the folded column name to that table only |
| Database.Catalog.DropTable | scripts/setup_unified_database.py:205 | DROP TABLE IF EXISTS removes exactly the folded name and nothing else |
| ImporterTable.CreatedColumns | core/gdb_importer.py:488-499 | the declared columns are id, geom, tile_code, then one clean name per source field in schema order |
| ImporterTable.BuildCreateSql | core/gdb_importer.py:488-501 | the statement built by the `+=` loop is the head, one ",\n    name type" per field in order, and the closing "\n);" |
| ImporterTable.CreateSql | core/gdb_importer.py:488-501 | specification of the CREATE TABLE text: the head with id, geom and tile_code, one definition per field, then the closing ");" |
| ImporterTable.CreateTableIfNotExists | core/gdb_importer.py:451-568 | the new catalog and the result (the flag and the DDL issued) equal the specification of the operation, for every branch |
| ImporterTable.EnsurePlanOf | core/gdb_importer.py:451-568 | apart from index statements, one call issues at most one statement (the CREATE or the ALTER) |
| ImporterTable.EnsureTableOf | core/gdb_importer.py:451-568 | specification of _create_table_if_not_exists: the planned catalog and result, the index statements included only when create_indexes is set |
| ImporterTable.EnsureFailures | core/gdb_importer.py:462-563 | a schema without geometry gives False with nothing issued; False never changes the catalog; the result is True exactly when there is geometry and the table exists or its CREATE succeeds |
| ImporterTable.EnsureNewTable | core/gdb_importer.py:484-530 | a new table with geometry is created under its folded name, the result is True, and the CREATE is followed by the two index statements only when indexes are asked for |
| ImporterTable.FixedColumnsFolded | core/gdb_importer.py:488-493 | the first three stored columns are id, geom and tile_code |
| ImporterTable.NewTableLayout | core/gdb_importer.py:484-505 | a created table adds only its folded name, keeps every other table, and holds 3 + fields columns: id, geom, tile_code and each folded clean field name in order |
| ImporterTable.ExistingTableOnlyGainsTileCode | core/gdb_importer.py:531-563 | an existing table keeps its columns and gains tile_code only when it lacks it and ALTER succeeds; only the ALTER and the tile_code index are issued, and the result is True even when ALTER fails |
| ImporterTable.IndexesDoNotDecide | core/gdb_importer.py:511-558 | with and without index creation the catalog and the flag are the same; index DDL only adds statements after the first |
| ImporterTable.UppercaseFieldNeverMapped | core/gdb_importer.py:267-279 | as written, a field whose clean name keeps an upper-case letter is never the source of any column, because the catalog holds folded names |
| ImporterTable.UppercaseFieldExample | core/gdb_importer.py:497-499 | a table created from the single field NAME receives no mapped column at all |
| ImporterTable.UnusedFieldMapsNothing | core/gdb_importer.py:276-279 | a field whose clean name is not among the data columns maps nothing |
| ImporterTable.CleanName | core/gdb_importer.py:220-227 | the clean identifier of NAME is NAME, case preserved |
| ImporterTable.CreatedColumnsFolded | core/gdb_importer.py:503-505 | every column of a created table is stored already folded |
| ImporterTable.FoldedFieldsAllMapped | core/gdb_importer.py:267-292 | with the lookup folded as the catalog folds, every non-empty field of a new table that does not fold to id, geom or tile_code is mapped to its column |
| Values.InsertText | scripts/import_all_tiles.py:172-180 | specification of the bound text of a non-None attribute: a string as it is, bytes through the UTF-8 decoder, anything else through str(); its partner InsertTextOfIntParses proves an int's text reads back as the same int |
| Values.InsertTextOfIntParses | scripts/import_all_tiles.py:177-178 | an integer attribute is bound as text that reads back as the same integer |
| Values.Attribute | scripts/import_all_tiles.py:165 | props.get(name) is present exactly when the feature carries that key |
| Values.Column | scripts/parse_tile_schema.py:108-110 | the values of an attribute across the feature stream, one per feature, in order |
| LayerImport.DataColumns | scripts/import_all_tiles.py:81-87 | data_columns keeps exactly the existing columns that are not excluded, never more of them |
| LayerImport.DataColumnsOrdered | scripts/import_all_tiles.py:81-87 | data_columns keeps ordinal order: its k-th column sits at a position of the table that grows strictly with k, and every position whose column is not excluded is kept |
| LayerImport.SourceField | scripts/import_all_tiles.py:99-105 | the field found is a source field that cleans to the column; none is found exactly when no field cleans to it |
| LayerImport.Mapping | scripts/import_all_tiles.py:89-107 | every mapped column is a data column filled from a non-empty source field that cleans to it, and there are no more mapped columns than data columns |
| LayerImport.FieldNames | scripts/import_all_tiles.py:91 | the property names in schema order |
| LayerImport.Columns | scripts/import_all_tiles.py:110 | the mapped column names in mapping order |
| LayerImport.RowOf | scripts/import_all_tiles.py:150-182 | the tuple of an accepted feature is its WKT, the tile code, then one bound value per mapped column (None stays NULL) |
| LayerImport.Flush | scripts/import_all_tiles.py:184-235 | executemany of the batch empties it; a commit adds the batch to count and the committed rows, a rollback adds its size to the errors; no row is lost from count + errors |
| LayerImport.FindSourceField | scripts/import_all_tiles.py:101-105 | the search loop with its break returns the first field in schema order whose clean name is the column |
| LayerImport.BuildMapping | scripts/import_all_tiles.py:98-107 | the loop over data_columns builds exactly the mapping specification |
| LayerImport.FlushBatch | scripts/import_all_tiles.py:184-217 | the flush block computes exactly the flush specification |
| LayerImport.ImportFeature | scripts/import_all_tiles.py:130-223 | one loop turn: no geometry is skipped, a rejected geometry adds one error, an accepted one joins the batch, which is flushed once it reaches batch_size |
| LayerImport.ImportLayerData | scripts/import_all_tiles.py:50-261 | the whole call equals the specification over the feature stream, including the final flush and the 0 returned when the layer cannot be opened |
| LayerImport.FeatureStepBalanced | scripts/import_all_tiles.py:130-223 | one turn keeps the loop invariant: every feature read is committed, an error, geometry-less or pending, and the batch stays below batch_size |
| LayerImport.ImportFoldBalanced | scripts/import_all_tiles.py:130-223 | by induction over the stream, the invariant holds after every prefix and processed counts the features read |
| LayerImport.ImportAccounting | scripts/import_all_tiles.py:120-257 | at the end the batch is empty and count + errors + geometry-less features equals the features read; every committed tuple has one value per placeholder |
| LayerImport.ImportFoldAllCommit | scripts/import_all_tiles.py:130-223 | when every executemany commits, the committed rows followed by the pending batch are the accepted rows in stream order, and the errors are the rejected geometries |
| LayerImport.AllCommitsInsertAccepted | scripts/import_all_tiles.py:130-235 | when every executemany commits, exactly the accepted features are inserted, in stream order, and the errors are exactly the rejected geometries |
| LayerImport.NoGeometryIsNeutral | scripts/import_all_tiles.py:133-134 | a feature without geometry only advances processed |
| LayerImport.GateRules | scripts/import_all_tiles.py:136-150 | a geometry is accepted exactly when shape() succeeds and it is valid, or skip_invalid is set and buffer(0) makes it valid; the WKT written is that of the geometry accepted |
| LayerImport.CleanNonEmpty | scripts/import_all_tiles.py:27-34 | a non-empty field name never cleans to the empty name |
| LayerImport.MappingColumnsStep | scripts/import_all_tiles.py:99-107 | each data column adds itself to the mapped columns exactly when a non-empty field is found for it |
| LayerImport.SourceFieldNonEmpty | scripts/import_all_tiles.py:101-106 | when a non-empty field cleans to a column, the field found for it is non-empty too |
| LayerImport.MappingComplete | scripts/import_all_tiles.py:89-107 | a data column is mapped exactly when some non-empty source field cleans to it (both directions) |
| LayerImport.RowFitsInsert | scripts/import_all_tiles.py:109-182 | the INSERT has one placeholder per column, geom and tile_code first and no excluded column after them, and every committed tuple has one value per placeholder |
| LayerImport.InsertShape | scripts/import_all_tiles.py:109-118 | the statement lists geom and tile_code, then the mapped columns, none of them excluded, with one placeholder per column |
| LayerImport.InsertSql | scripts/import_all_tiles.py:109-118 | specification of the INSERT text: the table, geom, tile_code and the mapped columns joined by ", ", and as many placeholders |
| LayerImport.GateOf | scripts/import_all_tiles.py:133-150 | specification of the geometry gate: no geometry, shape() failing, valid, or with skip_invalid the buffer(0) repair tried once |
| LayerImport.FeatureStep | scripts/import_all_tiles.py:130-223 | specification of one feature: counted as read, then a geometry-less or rejected feature is counted, an accepted one appended to the batch, and a full batch flushed |
| LayerImport.ImportFold | scripts/import_all_tiles.py:130-223 | specification of the feature loop: FeatureStep applied to the features in stream order from zero counters |
| LayerImport.ImportRun | scripts/import_all_tiles.py:130-257 | specification of the feature loop and the final `if batch:` flush: the fold over the stream, then one last flush of a non-empty batch |
| LayerImport.LayerImportOf | scripts/import_all_tiles.py:50-261 | specification of import_layer_data: 0 when the layer cannot be opened; otherwise the mapping onto the table's data columns, the INSERT statement, and the count and committed rows of the run |
| MapSum.ValuesSumRemove | core/gdb_importer.py:163 | sum(table_stats.values()) does not depend on the order the values are taken in: it is any one value plus the sum of the rest |
| MapSum.ValuesSumAdd | core/gdb_importer.py:122 | `table_stats[t] += c` adds exactly c to the sum of the values |
| MapSum.SumValues | core/gdb_importer.py:163 | the key-by-key loop computes the sum of the dictionary's values |
| TileImport.CountLayer | scripts/import_all_tiles.py:322-371 | the counter updates of one layer: a skip, an error, or a success whose rows are added to its table's total |
| TileImport.PipelineOutcomes | scripts/import_all_tiles.py:301-381 | one outcome per layer, in layer order, each the outcome of that layer against the catalog |
| TileImport.PipelineLayer | scripts/import_all_tiles.py:305-371 | one layer: skipped when its table is missing or the layer is empty, otherwise imported, succeeding exactly when rows were imported |
| TileImport.PipelineOutcome | scripts/import_all_tiles.py:305-371 | specification of one pipeline layer: skipped when its table is missing or the layer is empty; otherwise imported with its count when positive, failed when zero |
| TileImport.ImportGdbToUnifiedTables | scripts/import_all_tiles.py:264-410 | the whole call equals the specification: a ValueError when the layers cannot be listed or there are none, otherwise the summary over every layer's outcome |
| TileImport.PipelineTileOf | scripts/import_all_tiles.py:264-410 | specification of import_gdb_to_unified_tables: a ValueError when the layers cannot be listed or there are none; otherwise the summary of the layers' outcomes, in order, from the tile code of the name |
| TileImport.Summarize | scripts/import_all_tiles.py:296-371 | specification of the counters: each outcome adds one to success (with its rows added to table_stats under its table), errors or skipped |
| TileImport.SyncFold | core/gdb_importer.py:78-152 | the importer's loop yields one outcome per layer |
| TileImport.SyncLayerImport | core/gdb_importer.py:81-147 | one importer layer changes the catalog and lands in its bucket exactly as the specification does; its rows are imported with the folded field lookup, the corrected half of the upper-case field finding |
| TileImport.SyncStep | core/gdb_importer.py:78-152 | one pass of the importer's loop keeps the catalog, the outcomes and the counters equal to the specification over the layers read |
| TileImport.SyncLayers | core/gdb_importer.py:72-152 | the importer's loop leaves the catalog and the counters that the specification gives for the whole layer list |
| TileImport.ImportGdbSync | core/gdb_importer.py:32-176 | the whole call equals the specification: a ValueError for an unreadable or empty layer list, otherwise the summary with the catalog as the layers left it |
| TileImport.SyncTileOf | core/gdb_importer.py:32-176 | specification of import_gdb_sync: a ValueError for unreadable or empty layers; otherwise the importer loop over the layers against a growing catalog, and its summary |
| TileImport.SummarizeCounts | scripts/import_all_tiles.py:296-371 | every layer is counted once among success, errors and skipped; table_stats holds exactly the tables some layer was imported into, each with the sum of its rows |
| TileImport.ImportedCountsPositive | scripts/import_all_tiles.py:363-365 | a table in table_stats received at least one row |
| TileImport.SumAtLeastOne | scripts/import_all_tiles.py:364 | a table's total is at least the rows of any one layer imported into it |
| TileImport.PipelineBuckets | scripts/import_all_tiles.py:284-410 | an unreadable list and an empty list raise; otherwise total_layers is the number of layers, the three counts add up to it, and the tile code is extracted from the stem |
| TileImport.PipelineOutcomeRules | scripts/import_all_tiles.py:306-371 | a layer is skipped exactly when its lower-cased table is missing or the layer opens empty; a layer that cannot be opened is an error; a success names its table and a positive count |
| TileImport.EnsureKeepsTables | core/gdb_importer.py:451-568 | ensuring a table never removes a table |
| TileImport.SyncFoldKeepsTables | core/gdb_importer.py:78-152 | by induction over the layers, the importer's loop only ever adds tables |
| TileImport.SyncBuckets | core/gdb_importer.py:55-176 | an unreadable or empty layer list raises and leaves the catalog alone; otherwise the three counts add up to total_layers; no table is ever removed |
| TileImport.SyncLayer | core/gdb_importer.py:81-147 | one importer layer never removes a table; it is skipped exactly when it has a table name and opens empty; a success names its mapped table with a positive count; a layer without geometry is an error that changes nothing |
| TileImport.SyncImport | core/gdb_importer.py:107-128 | specification of one importer layer's rows, with the folded (corrected) field lookup: imported with its count when positive, failed when zero |
| SetupPipeline.AnalysisFileName | scripts/parse_tile_schema.py:533 | the analysis file of a tile is its code followed by _complete_analysis.json |
| SetupPipeline.LastDot | scripts/setup_unified_database.py:139 | the index of the last '.' of a name, or -1 when it has none |
| SetupPipeline.Stem | scripts/setup_unified_database.py:139 | Path(name).stem is a prefix of the name: the last suffix is removed unless its dot leads or ends the name |
| SetupPipeline.ReferenceTile | scripts/setup_unified_database.py:138-144 | the derived reference tile is a prefix of the name, and it differs from the name exactly when the name is longer than three characters and begins with F or G |
| SetupPipeline.Step1 | scripts/setup_unified_database.py:150-161 | step1 (corrected) succeeds exactly when the parse succeeds, and returns the file the parse wrote |
| SetupPipeline.Step1AsWritten | scripts/setup_unified_database.py:120-161 | specification of step1 as written: a failed parse raises; otherwise the file of the given or derived reference tile must be listed or be the one the parse wrote |
| SetupPipeline.AppendCancel | scripts/setup_unified_database.py:155 | two names with the same analysis file name are equal |
| SetupPipeline.Step1AsWrittenFailsIff | scripts/setup_unified_database.py:138-158 | as written, with no earlier analysis files and the default reference tile, step1 fails after a successful parse exactly for names longer than three characters that begin with F or G |
| SetupPipeline.Step1AsWrittenMisses | scripts/setup_unified_database.py:138-158 | for a dot-free such name, step1 as written looks for the three-character tile's file and fails, while the corrected step1 returns the parse's file |
| SetupPipeline.Step1AsWrittenExample | scripts/setup_unified_database.py:138-158 | F49_2021.gdb: the parse writes F49_2021_complete_analysis.json and step1 as written raises because it looks for F49_complete_analysis.json |
| SetupPipeline.DropList | scripts/setup_unified_database.py:197-201 | the drop list holds exactly the lower-cased names of the layers whose analysis succeeded |
| SetupPipeline.Dropped | scripts/setup_unified_database.py:203-210 | after the drops, a table remains exactly when it existed and matches no dropped name, and it keeps its columns |
| SetupPipeline.Step2Of | scripts/setup_unified_database.py:164-238 | specification of step2: a missing file raises; force drops the analysed tables; an exception of the schema creation passes through the `finally` with the catalog as it stands; otherwise True is returned exactly when some table was created |
| SetupPipeline.TablesToDrop | scripts/setup_unified_database.py:197-201 | the loop gathers exactly the drop list |
| SetupPipeline.Step2CreateSchema | scripts/setup_unified_database.py:164-238 | step2 equals its specification: a missing file raises; force drops the analysed tables first; an exception of the schema creation passes through; otherwise the result is True exactly when some table was created |
| SetupPipeline.ForcedDropClears | scripts/setup_unified_database.py:194-210 | a forced drop removes the table of every analysed layer and keeps every other table unchanged |
| SetupPipeline.LayerStepKeepsCreated | scripts/create_unified_schema.py:109-309 | a layer never removes a created entry; a failed analysis only adds one skip; with every statement succeeding a new table adds one created entry |
| SetupPipeline.SomeTableCreated | scripts/create_unified_schema.py:109-309 | with every statement succeeding and none of the tables present, some table is created as soon as one layer was analysed; with none analysed nothing changes |
| SetupPipeline.Step2Outcome | scripts/setup_unified_database.py:194-235 | with no analysed layer step2 returns False; with force and every statement accepted it raises exactly when an analysed "None"-geometry layer, the first of its table name, is followed by another analysed layer, and when it returns it returns True exactly when some layer was analysed |
| SetupPipeline.FoldTables | scripts/create_unified_schema.py:109-309 | with every CREATE TABLE accepted, the layer fold's catalog holds exactly the starting tables and the lower-cased names of the analysed layers |
| SetupPipeline.CreatedUnderAllOk | scripts/create_unified_schema.py:109-309 | with every statement accepted and no analysed layer's table present at the start, a layer is created exactly when it was analysed and no earlier analysed layer has its table name |
| SetupPipeline.NothingCreated | scripts/create_unified_schema.py:110-117 | without an analysed layer the run returns and no table is created, whatever the database answers |
| SetupPipeline.ValuesSumIsImportedRows | scripts/setup_unified_database.py:290 | the sum of a tile's table_stats values is the rows its imported layers contributed |
| SetupPipeline.Step3FoldNext | scripts/setup_unified_database.py:281-299 | each tile of the loop adds one success and its rows, or one failure |
| SetupPipeline.Step3ImportData | scripts/setup_unified_database.py:241-309 | step3 equals its specification: no *.gdb raises; otherwise every tile is imported in order and a tile that raises is counted as failed |
| SetupPipeline.Step3Of | scripts/setup_unified_database.py:241-309 | specification of step3: no *.gdb raises; otherwise each tile in order adds a success and its rows, or a failure |
| SetupPipeline.UnreadableTiles | scripts/setup_unified_database.py:294-296 | the number of tiles whose layers cannot be listed or are none is at most the number of tiles |
| SetupPipeline.Step3FoldCounts | scripts/setup_unified_database.py:281-299 | by induction over the tiles, success + failed is the number of tiles, failed is the unreadable tiles, and total_records is the rows of the imported layers |
| SetupPipeline.Step3Accounting | scripts/setup_unified_database.py:263-306 | step3 raises exactly when no geodatabase is found; otherwise total_files, success + failed, failed and total_records are as the tiles determine |
| SetupPipeline.FirstPresent | scripts/setup_unified_database.py:354-360 | the first default geodatabase that exists, in list order; none exactly when none exists |
| SetupPipeline.AnalysisFiles | scripts/setup_unified_database.py:377-378 | the glob keeps exactly the files whose names end in _complete_analysis.json, names beginning with a dot included, never more of them |
| SetupPipeline.FindReferenceGdb | scripts/setup_unified_database.py:354-360 | the search loop with its break returns the first default geodatabase present |
| SetupPipeline.ChooseAnalysis | scripts/setup_unified_database.py:348-387 | the analysis file chosen equals SelectAnalysis, with step1 as written on the parse path and the fallback under skip_parse |
| SetupPipeline.FullSetup | scripts/setup_unified_database.py:312-413 | full_setup equals its specification as written: the steps in order, a step whose exception ends the run, the prompt after a step2 that created nothing, and the flags that skip each step |
| SetupPipeline.SkipParseFallback | scripts/setup_unified_database.py:370-387 | with parsing skipped the file used exists; another file is used only when the reference one is absent; the run stops exactly when no analysis file exists |
| SetupPipeline.ParseSelectsItsOutput | scripts/setup_unified_database.py:351-368 | with parsing and the corrected step1, the run stops for lack of a geodatabase exactly when none is given and no default exists; otherwise the analysis used is the one the parse of the chosen geodatabase wrote |
| SetupPipeline.ParseAsWrittenSelects | scripts/setup_unified_database.py:138-368 | with parsing, as written: the same stop condition; otherwise the parse succeeded and the file is the derived tile's, already listed or the one the parse wrote, and it is the parse's own file exactly when the tile is the whole name |
| SetupPipeline.AsWrittenAgreesWhenTileIsName | scripts/setup_unified_database.py:138-387 | full_setup as written and corrected choose the same file and end alike when parsing is skipped, no geodatabase is found, or the derived tile is the whole name |
| SetupPipeline.SelectAnalysis | scripts/setup_unified_database.py:348-387 | specification of the choice as written: the given or first default geodatabase, then step1 as written; under skip_parse the reference file, else the first analysis file listed |
| SetupPipeline.FullSetupOf | scripts/setup_unified_database.py:312-413 | specification of full_setup: the choice, step2 unless skipped (its exception ends the run), the cancel after a step2 that created nothing and a reply other than yes, then step3 unless skipped |
| SetupPipeline.SetupFrom | scripts/setup_unified_database.py:389-413 | specification of full_setup after the choice of the analysis file: a failed choice stops; then step2 unless skipped (its exception stops), the cancel after a step2 that created nothing and a reply other than yes, then step3 unless skipped |
| SetupPipeline.FullSetupCorrectedOf | scripts/setup_unified_database.py:312-413 | specification of full_setup with the corrected step1: the same flow after the corrected choice |
| SetupPipeline.SelectAnalysisCorrected | scripts/setup_unified_database.py:348-387 | specification of the choice with the corrected step1: the given or first default geodatabase and the file its parse wrote; under skip_parse the reference file, else the first analysis file listed |
| SetupPipeline.ImportNeedsSchemaOrConsent | scripts/setup_unified_database.py:389-403 | the import runs only when step2 created a table, was skipped or the operator agreed; a cancelled run stops after step2; skip_create leaves the catalog alone |
| SetupPipeline.SetupFromConsent | scripts/setup_unified_database.py:389-403 | the same consent and skip facts for the rest of full_setup once the analysis file is chosen, whatever that choice gave |
| TableValidation.TrailingNewlineAccepted | core/table_validator.py:19-76 | as written, "t\n" passes the `^...$` pattern and is cached, while the corrected check refuses it as malformed |
| TableValidation.AcceptedNamesAreIdentifiers | core/table_validator.py:19-77 | every name the corrected check accepts, and every name in its cache, is one whole identifier, with no newline, space or semicolon |
| TableValidation.ValidateCases | core/table_validator.py:41-77 | for either format check (the `$` pattern as written or the anchored one): an empty or malformed name is refused and not cached; a cached name is returned whatever the connection says; a missing table is refused and not cached; otherwise, a database failure included, the name comes back unchanged and is cached |
| TableValidation.ValidateAsWritten | core/table_validator.py:19-77 | specification of validate_table_name as written: empty name, the $-anchored pattern, the cache, the existence query, then the name added to the cache |
| TableValidation.Validate | core/table_validator.py:24-77 | specification of validate_table_name with the pattern anchored at the very end, otherwise the same steps |
| TableValidation.TableValidator.constructor | core/table_validator.py:22 | the class-level cache starts empty |
| TableValidation.TableValidator.ValidateTableName | core/table_validator.py:24-77 | the method's result and the new cache are those of the corrected validation |
| TableValidation.TableValidator.ClearCache | core/table_validator.py:79-82 | clear_cache empties the cache |
| Caching.GenerateKey | core/cache_manager.py:73-92 | the key is the prefix, a colon, then the digest |
| Caching.GenerateKeySplits | core/cache_manager.py:92 | with no colon in the prefix, the first colon of the key ends the prefix |
| Caching.OperationsKeepStep | core/cache_manager.py:94-198 | get, set, delete and clear keep the value map and the expiry map on the same keys |
| Caching.GetCases | core/cache_manager.py:113-126 | before its expiry a stored value comes back and nothing changes; at or after it the key leaves both maps, others stay, and None comes back; a missing key gives None |
| Caching.GetOf | core/cache_manager.py:113-126 | specification of get: a live entry is returned; an expired one is removed and gives None; a missing key gives None |
| Caching.SetOf | core/cache_manager.py:128-149 | specification of set: the value stored with the expiry now plus the given or default ttl |
| Caching.ClearOf | core/cache_manager.py:170-198 | specification of clear: a given non-empty prefix removes just the keys that start with it, otherwise both maps are emptied |
| Caching.CachedOf | core/cache_manager.py:263-282 | specification of the cached wrapper: a hit is returned without a call; otherwise the call is made and its result stored with the wrapper's ttl |
| Caching.GetAfterSet | core/cache_manager.py:113-149 | a value set with a ttl (the default when none is given) is what get returns until now + ttl, and None from then on |
| Caching.DeleteOnlyThatKey | core/cache_manager.py:164-168 | delete removes that key from both maps and no other, and leaves both maps as they are for a missing key |
| Caching.ClearExactlyPrefix | core/cache_manager.py:189-198 | clear(prefix) removes exactly the keys that start with the prefix and keeps the rest unchanged; clear() empties both maps |
| Caching.ClearRemovesGeneratedKeys | core/cache_manager.py:190-195 | every key generated with a prefix is removed by clear of that prefix |
| Caching.CacheManager.constructor | core/cache_manager.py:31-47 | the cache starts empty with the given default ttl |
| Caching.CacheManager.Get | core/cache_manager.py:94-126 | get changes the maps and returns the value exactly as the specification of get does |
| Caching.CacheManager.Set | core/cache_manager.py:128-149 | set stores the value and an expiry of now plus the ttl, the default ttl when none is given |
| Caching.CacheManager.Delete | core/cache_manager.py:151-168 | delete equals its specification: that key leaves both maps |
| Caching.DeleteOf | core/cache_manager.py:151-168 | specification of delete on the in-memory path: the key leaves both the value map and the expiry map |
| Caching.CacheManager.Clear | core/cache_manager.py:170-198 | the loop that deletes the collected keys one by one gives exactly the maps without the prefixed keys; without a prefix both maps are emptied |
| Caching.CacheManager.Stats | core/cache_manager.py:200-211 | memory_cache_size counts every stored entry, expired or not, and default_ttl is the configured one |
| Caching.Cached | core/cache_manager.py:263-282 | the wrapper equals its specification: a cached value that is not None is returned without a call, otherwise the result is stored under the generated key with the wrapper's ttl |
| Caching.CachedCalls | core/cache_manager.py:267-282 | the function is called exactly when get finds nothing that is not None; a hit returns the stored value and changes nothing; after a call the key holds the result until now + ttl |
| Caching.CachedTwice | core/cache_manager.py:270-279 | after a call that stored a result that is not None, every call within the ttl is a hit returning it; a None result never makes a hit |
| Monitoring.StatsStepFacts | core/performance_monitor.py:29-63 | record_query on one operation adds one call and the duration, keeps the minimum at most and the maximum at least the duration, and counts a slow query exactly when the duration exceeds the threshold |
| Monitoring.StatsStep | core/performance_monitor.py:29-63 | specification of the statistics update: count and total grow, min and max take the duration, a slow call is counted; a fresh entry starts from min infinite and max 0.0 |
| Monitoring.Push | core/performance_monitor.py:38-78 | specification of deque(maxlen=100).append: the entry goes last and the oldest goes when the queue is full |
| Monitoring.LastEntries | core/performance_monitor.py:112-122 | specification of list(recent_queries)[-limit:] with Python's slicing, zero and negative limits included |
| Monitoring.StatsReport | core/performance_monitor.py:80-110 | specification of get_stats: a named operation's entry alone, or nothing when unknown; otherwise every entry, each with its average |
| Monitoring.PerformanceMonitor.GetStats | core/performance_monitor.py:80-110 | get_stats on the monitor's statistics, as StatsReport |
| Monitoring.PerformanceMonitor.GetRecentQueries | core/performance_monitor.py:112-122 | get_recent_queries on the monitor's queue, as LastEntries |
| Monitoring.PushFacts | core/performance_monitor.py:38-78 | the queue keeps at most 100 entries, the newest last; once full, only the oldest entry is dropped |
| Monitoring.LastEntriesFacts | core/performance_monitor.py:112-122 | a positive limit gives the newest min(limit, n) entries in order; a zero limit gives them all (Python's -0); a negative limit drops that many from the front |
| Monitoring.StatsReportFacts | core/performance_monitor.py:80-110 | an unknown operation gives {}; a known one gives only its entry; no operation gives every entry; each report carries the stored statistics and total/count as average (0 for no calls) |
| Monitoring.PerformanceMonitor.constructor | core/performance_monitor.py:21-38 | no statistics and no recent queries, with the given slow-query threshold |
| Monitoring.PerformanceMonitor.RecordQuery | core/performance_monitor.py:40-78 | its operation's entry becomes the statistics step of the old entry (or a fresh one) and the call is pushed onto the recent queue |
| Monitoring.PerformanceMonitor.ResetStats | core/performance_monitor.py:124-136 | an operation removes only its entry, keeping the queue; no operation clears the statistics and the queue |
| Monitoring.RecordOnlyThatOperation | core/performance_monitor.py:56-63 | record_query adds at most its own operation and leaves every other operation's entry unchanged |
| Monitoring.MonitorPerformance | core/performance_monitor.py:159-209 | one entry is recorded under operation_name or the function name however the call ends: that operation's statistics take record_query's update (count, total, min, max, slow count), every other entry is unchanged, and the queue gets the new record; a raised Exception marks it failed with its message, an interruption that is not an Exception is recorded as a success without error; the call's outcome is passed on unchanged |
| Monitoring.OperationName | core/performance_monitor.py:173 | specification of `operation_name or func.__name__`: the given name when it is non-empty, else the function name; MonitorPerformance records under it |
| DataQuery.RecordOf | core/data_importer.py:442-455 | the record of a row has exactly the reported column names as keys |
| DataQuery.ExecuteSqlGuard | core/data_importer.py:423-461 | a statement that is not a SELECT, after stripping and upper-casing, is refused whatever the database would answer, and only such a statement is refused so; an answered SELECT reports the columns, a count equal to the number of rows, and one record per row keyed by exactly those columns |
| DataQuery.IsSelectQuery | core/data_importer.py:423-426 | specification of the guard: the statement, stripped and upper-cased, starts with SELECT |
| DataQuery.BuildRecord | core/data_importer.py:443-454 | the column-by-column loop yields the row's record, with a text or bytes `geom` cell passed through ST_AsText, or str() when that raises |
| DataQuery.ExecuteSql | core/data_importer.py:408-461 | the guard, the statement and the row-by-row conversion give the result of the specification of execute_sql, a row shorter than the columns raising |
| DataQuery.ExecuteSqlOf | core/data_importer.py:408-461 | specification of execute_sql: a statement that is not a SELECT is refused; a raising one is an error; otherwise one record per row, keyed by the columns |
| DataQuery.StripLeftOfSpaces | core/data_importer.py:424 | leading white space does not survive strip() |
| DataQuery.GuardIgnoresLeadingSpace | core/data_importer.py:424-425 | the SELECT guard gives the same verdict with any white space put in front of the statement |
| DataQuery.LowerCharSpace | core/data_importer.py:424 | lower-casing a character keeps whether it is white space |
| DataQuery.StripLeftLower | core/data_importer.py:424 | stripping the left end commutes with lower-casing |
| DataQuery.StripRightLower | core/data_importer.py:424 | stripping the right end commutes with lower-casing |
| DataQuery.UpperOfLower | core/data_importer.py:424 | upper-casing a lower-cased statement is the same as upper-casing the statement |
| DataQuery.GuardIgnoresCase | core/data_importer.py:424-425 | the SELECT guard gives the same verdict for the lower-cased statement |
| DataQuery.AttributeParams | core/data_importer.py:167-170 | one parameter per attribute filter entry, its value, in dictionary order |
| DataQuery.AttributeSqlNext | core/data_importer.py:168-169 | each attribute entry adds its clause `AND key = %s` after the earlier ones |
| DataQuery.AppendAttributes | core/data_importer.py:166-170 | the attribute loop appends exactly the attribute clauses to the statement and the attribute values to the parameters |
| DataQuery.BuildQuery | core/data_importer.py:151-173 | the statement and the parameter list are the head, the spatial clause (the bbox winning over the geometry), the attribute clauses and the LIMIT, with their parameters in that order |
| DataQuery.ClauseMarkers | core/data_importer.py:159-172 | the envelope clause has four parameter markers, the intersection clause one and the LIMIT clause one |
| DataQuery.AttributeClauseMarkers | core/data_importer.py:169 | an attribute clause has exactly one marker when its key holds no '%' |
| DataQuery.AttributeSqlMarkers | core/data_importer.py:167-170 | the attribute clauses together have one marker per entry |
| DataQuery.HeadMarkers | core/data_importer.py:152 | the statement head has no marker when the table name holds no '%' |
| DataQuery.SpatialMarkers | core/data_importer.py:156-164 | the spatial clause has four markers for a bbox, one for a geometry, none otherwise, and contributes the bbox's values, the one geometry or nothing |
| DataQuery.QueryMarkers | core/data_importer.py:151-175 | with no '%' in the names the statement has one marker per parameter, except that the envelope always has four markers whatever the length of the bbox given; a four-value bbox matches exactly |
| DataQuery.QueryShape | core/data_importer.py:151-173 | the statement starts with `SELECT * FROM table WHERE 1=1` and ends with ` LIMIT %s`; the limit is always the last parameter, after the bbox values or the geometry and the attribute values |
| DataQuery.QuerySql | core/data_importer.py:151-173 | specification of the query text: the SELECT head, the spatial clause, one AND clause per attribute, then the LIMIT |
| DataQuery.ZipRecord | core/data_importer.py:181 | dict(zip(columns, row)) has as keys the column names that have a value in the row, the shorter of the two deciding |
| DataQuery.Records | core/data_importer.py:179-195 | one record per row returned |
| DataQuery.QueryData | core/data_importer.py:126-201 | the built statement is run and its rows converted one by one, giving the specification of query_data; a raising statement is an error |
| DataQuery.QueryDataOf | core/data_importer.py:126-201 | specification of query_data: a raising query is an error; otherwise the records of the rows, with their count and the limit |
| DataQuery.QueryResultCounts | core/data_importer.py:175-201 | query_data succeeds exactly when the statement is answered; count is the number of records, one per row, and limit echoes the argument |
| DataQuery.QueryRecordFacts | core/data_importer.py:181-195 | a record keeps the zipped keys and every value but geom's; a present truthy geom becomes text (with " (空几何)" for an empty geometry, str() when the conversion raises); a falsy geom is left alone |
| DataQuery.QueryRecord | core/data_importer.py:181-195 | specification of one record of query_data: dict(zip(columns, row)), with a truthy geom replaced by its ST_AsText text (with the empty-geometry suffix when ST_IsEmpty holds) or by str() when that query raises |
| DataQuery.TableRows | core/data_importer.py:372-388 | every grouped row of a table is attributed to that table; a table whose query raises contributes nothing |
| DataQuery.GatherAppend | core/data_importer.py:382-386 | gathering one more observation is one more gathering step |
| DataQuery.ObservationsNext | core/data_importer.py:372-388 | one more table adds its grouped rows after those of the earlier tables |
| DataQuery.GatherTable | core/data_importer.py:373-388 | the loop over one table's grouped rows adds each tile code once to the set and records the table's count under it, as the gathering specification does |
| DataQuery.Gather | core/data_importer.py:369-388 | specification of the gathering loop: each observation adds its code, once, in first-seen order, and sets its table's count under that code |
| DataQuery.ListTileCodes | core/data_importer.py:332-403 | no table with a tile_code column gives the empty answer with its message; otherwise the tables are gathered, the codes sorted, and each entry carries the per-table counts and their sum, as the specification of list_tile_codes says |
| DataQuery.ListTileCodesOf | core/data_importer.py:332-403 | specification of list_tile_codes: no table with tile_code gives the empty answer; otherwise the gathered codes sorted, each with its per-table counts and their total |
| DataQuery.AddUniqueDistinct | core/data_importer.py:383 | adding to the set keeps the codes distinct |
| DataQuery.ObservedStep | core/data_importer.py:382-383 | a code is observed after one more row exactly when it was observed before or is that row's code |
| DataQuery.ReportedByStep | core/data_importer.py:382-386 | a table has reported a code after one more row exactly when it had before or that row is the table's report of the code |
| DataQuery.ReportedStep | core/data_importer.py:386 | a report stays a report when more rows follow, and a new row is a report |
| DataQuery.GatherHoldsStep | core/data_importer.py:382-386 | one gathering step keeps the gathering invariant: distinct codes, exactly the observed ones, each stored count reported by its table, and every table that reported a code stored under it |
| DataQuery.GatherCorrect | core/data_importer.py:369-388 | the gathering of all rows satisfies the gathering invariant |
| Sorting.DistinctCount | core/data_importer.py:369 | a string occurs at most once in a list of distinct strings |
| Sorting.TwoCopies | core/data_importer.py:392 | two equal positions make two occurrences |
| Sorting.DistinctPermutation | core/data_importer.py:392 | a permutation of a distinct list is distinct, so sorting the tile codes keeps them distinct |
| Sorting.SortStringsDistinct | scripts/analyze_gdb_schema.py:54-70 | sorted() of distinct strings gives distinct strings, as for the sorted sample set |
| DataQuery.ListedCodes | core/data_importer.py:391-398 | the entries are those of the sorted gathered codes, position by position |
| DataQuery.ListTileCodesSorted | core/data_importer.py:361-403 | no table gives the empty answer; total is the number of entries; the tile codes are listed in strictly ascending order, each once |
| DataQuery.ListTileCodesComplete | core/data_importer.py:369-398 | a tile code is listed exactly when some table reported it |
| DataQuery.ListTileCodesEntries | core/data_importer.py:382-398 | each entry's tables are exactly the tables that reported the code, with the count each reported, and total_records is the sum of those counts |
| DataQuery.ImportDefaults | core/data_importer.py:20-59 | without options the import uses the spec's default SRID or 4326, batches of 1000, skips invalid geometries and creates indexes; an option given always wins |
| DataQuery.ImportPlan | core/data_importer.py:20-72 | specification of import_data's checks and defaults: no spec given or detected, or a format other than gdb, is refused; each option defaults to the spec's SRID or 4326, 1000, True and True |
| DataQuery.ImportRefusals | core/data_importer.py:45-72 | import_data fails for want of a spec exactly when none is given or detected, and proceeds only for the "gdb" format |
| FieldSpec.LookupFacts | scripts/generate_field_spec.py:38-73 | the description table finds a field name exactly when it holds that exact, case-sensitive name, and then gives the text of that entry |
| FieldSpec.FieldDescriptionParts | scripts/generate_field_spec.py:32-96 | a description starts with the fixed text of a known field name whatever its type, and otherwise with the text for its type; a null rate above 50 adds the warning, one in (0, 50] the bare rate, none nothing; one to five samples are appended, joined by 、, and otherwise none |
| FieldSpec.FieldDescription | scripts/generate_field_spec.py:32-96 | specification of get_field_description: the base text of the name and type, then the null-percentage and sample suffixes |
| FieldSpec.StrWithWidth | scripts/generate_field_spec.py:77 | `str:` followed by a width without a colon splits at the colon into that width |
| FieldSpec.StringTypeText | scripts/generate_field_spec.py:76-77 | an unknown string field is described with its declared width, or with 未知 when the type has no width |
| FieldSpec.PgTypeDisplayCases | scripts/generate_field_spec.py:184-193 | the type shown is VARCHAR(N) for `str:N`, TEXT for `str` and for `str:` with an empty width, INTEGER for int32, DOUBLE PRECISION for float, and the type string itself for any other type |
| FieldSpec.PgTypeDisplay | scripts/generate_field_spec.py:184-193 | specification of the type display: str:N is VARCHAR(N), str and str: TEXT, int32 INTEGER, float DOUBLE PRECISION, anything else itself |
| FieldSpec.GroupByCategory | scripts/generate_field_spec.py:109-121 | the grouping loop yields the categories in the order they first occur, each with its layers appended in mapping order |
| FieldSpec.GroupOfFacts | scripts/generate_field_spec.py:112-121 | the grouping lists each category once, its keys are exactly the categories that occur, and each holds exactly the layers of that category (其他 when none is given), in mapping order |
| FieldSpec.GroupOf | scripts/generate_field_spec.py:109-121 | specification of the grouping loop: each layer appended to its category, a new category opened in first-seen order |
| FieldSpec.InCategoryMembers | scripts/generate_field_spec.py:114-121 | a category holds a layer exactly when that layer's category, defaulted to 其他, is that category |
| FieldSpec.SectionsOrdered | scripts/generate_field_spec.py:150-154 | the sections are the grouping's categories, each once, in ascending order |
| FieldSpec.SectionMembers | scripts/generate_field_spec.py:154 | under each category come its layers, ordered by table_name and the same layers as the grouping holds |
| FieldSpec.SectionsFacts | scripts/generate_field_spec.py:109-154 | the document lists every category that occurs, once and in ascending order, and under each exactly the layers of that category, ordered by table_name |
| FieldSpec.Sections | scripts/generate_field_spec.py:150-154 | specification of the section order: the categories sorted, and the tables of each sorted by table_name |
| FieldSpec.MapRowsPointwise | scripts/generate_field_spec.py:179-195 | one field row per field, each row that of the field in the same position |
| FieldSpec.FieldRows | scripts/generate_field_spec.py:179-195 | the field loop emits the rows of the fields in name order |
| FieldSpec.FieldRowsOrdered | scripts/generate_field_spec.py:179-195 | the rows come in ascending order of the field names, one per field, each naming its field in lower case |
| FieldSpec.RowNamesField | scripts/generate_field_spec.py:195 | a field row starts with the field's name in lower case |
| FieldSpec.EmitLayer | scripts/generate_field_spec.py:155-205 | one layer's lines: its heading, then the note that its analysis data is missing, or its geometry type, the field table in name order and the NAME hint when NAME (else name) has a null rate above 50 |
| FieldSpec.EmitCategory | scripts/generate_field_spec.py:150-205 | one category's lines: its heading, then the lines of each of its layers in order |
| FieldSpec.GenerateFieldSpec | scripts/generate_field_spec.py:99-212 | the lines written are the fixed header followed by the sections of the grouped, sorted categories, as the document specification says |
| FieldSpec.DocumentOf | scripts/generate_field_spec.py:99-212 | specification of the document: the fixed header lines, then the lines of every section in order |

## Left out

- Database access is not executed. Connections, cursors, commits, rollbacks and `information_schema` queries become a catalog value, answer functions and per-statement success flags.
- `CREATE EXTENSION` is a flag.
- The text of DDL is modelled in full for the parse script's design (the CREATE TABLE statement with its line comments, the index statements and the COMMENT ON statements) and for the importer's column list. Elsewhere, in create_unified_schema.py and the setup script's drops, only the effect on the catalog is modelled.
- Fiona and shapely are not modelled. Layers, schemas and features are given as sequences, and `shape()`, `is_valid`, `buffer(0)`, `ST_IsEmpty`/`ST_AsText` and WKT rendering are oracles.
- Decoding bytes as UTF-8 with errors ignored is a decoder parameter.
- `lower()`, `upper()`, `isdigit()` and `strip()` act on ASCII only. Python's Unicode case mapping and white-space classes are not modelled.
- The float average `avg_value` of the field profile is not modelled, because no property rests on floating point.
- `FieldProfile.TallyOf`: a float is a real number with its text. NaN and the infinities, which the min/max updates of scripts/parse_tile_schema.py:161-164 compare falsely, are not modelled.
- `FieldProfile.ProfileOf`, `LayerProfile.LayerInfoOf`, `LayerSampling.ReportOf`: a layer either cannot be opened or is read in full. A read failure part-way through the loops (scripts/parse_tile_schema.py:142-228, scripts/analyze_gdb_schema.py:43-75) gives the source's error entry with the counters reached so far; the model has no such case.
- Elapsed times in the import reports are not modelled, and neither are durations in log messages.
- The performance monitor's durations are reals, and its timestamps are strings supplied by the caller.
- The cache manager's clock is an integer number of seconds supplied by the caller.
- The md5 digest of `_generate_key` is a parameter. Only the key's `prefix:digest` shape is stated.
- The Redis branches of the cache manager are not modelled; only its in-memory path is.
- The `:.1f` rendering of percentages is a formatting parameter.
- JSON loading and writing, the SQL and Markdown files written by the parse script and the document generator, and all logging and printing are not modelled. The model states the line and row sequences that would be written.
- The text of the `COMMENT ON` statements of scripts/create_unified_schema.py:265-290 is not modelled; only whether the block fails is. A failure is swallowed without a rollback, and the model carries the aborted transaction into the next layer.
- `TableDesign.DesignOf`: the design's create_sql is the text as the source builds it, with the separating commas inside the line comments. The corrected rendering, `TableDesign.CorrectedCreateTableSql`, stands beside it; no modelled step reads create_sql, so nothing else changes with it.
- `TableDesign.DesignOf`: the column types use the corrected TEXT fallback of `TableDesign.FieldColumnType`. The source writes `None` for a field whose recommended type is None (scripts/parse_tile_schema.py:375).
- `TableDesign.DesignOf`: a designed column holds its name, type, constraints, index kind, original field name and description. The informational keys null_percentage, unique_percentage, sample_values[:5], statistics and max_length (scripts/parse_tile_schema.py:377-391) are not modelled; no modelled step reads them.
- `UnifiedSchema.CommonIndexes`: the catalog records no indexes. When the last common field ("rn") fails, the commit of the aborted transaction rolls back the geom, tile_code and earlier common indexes; the model, like the source's result, still counts them, and the rollback itself is not represented.
- `DataQuery.BuildRecord`: each record's `ST_AsText` conversion in execute_sql is an independent oracle answer. In the source, one failed conversion aborts the transaction, so every later record's conversion fails as well and falls back to `str()` (core/data_importer.py:443-454).
- `DataQuery.QueryData`, `DataQuery.QueryDataOf`, `DataQuery.Records`: each row's `ST_IsEmpty`/`ST_AsText` query is an independent oracle answer. In the source, one failed query aborts the transaction, so every later row's query fails as well (core/data_importer.py:183-194).
- `DataQuery.TableRows`: each table's tile-code query is an independent oracle answer. In the source, one failed query aborts the transaction, so every later table's query fails as well (core/data_importer.py:372-388).
- `SetupPipeline.Dropped`: every DROP is assumed to succeed. In the source, a failed DROP aborts the transaction, the later DROPs fail, and the commit rolls back the earlier ones (scripts/setup_unified_database.py:203-210).
- The outer `except` of import_layer_data (scripts/import_all_tiles.py:259-261) returns 0 when reading fails in the middle of the stream, although earlier batches were already committed. The model's feature stream cannot fail in the middle.
- The `value_lengths` list of the parse script's field profile (scripts/parse_tile_schema.py:124, 192-198) is not modelled; no other step reads it.
- query_data's default `limit=100` (core/data_importer.py:131) is not modelled as a default; the limit is always a parameter.
- A None `table_name` or `description` in generate_field_spec.py (lines 119-120, 154-159) is not modelled. The text "None" would be written, or the sort by table_name would raise; the model's entries always hold strings.
- `SetupPipeline.PathStem`: a path ending in '/' is not modelled as pathlib does. pathlib drops the trailing '/' and takes the last real component; the model takes the empty text after the last '/'.
- The `ANALYZE` statement after an import is not modelled; it has no effect on the model's state.
- The command-line front end `main` of scripts/setup_unified_database.py:431-512 is not modelled. A `Stopped` outcome of full_setup stands for an exception that reaches it, which prints the error and exits with status 1.
- The interactive confirmation in `full_setup` is modelled as the reply string: after stripping and lower-casing, `yes` or `y` proceeds.
- The data importer's methods are `async`, and the model runs them sequentially. Concurrency is not modelled.
- Configuration and environment lookup, `get_database_connection` and the spec loader are not modelled. The spec's `layer_mapping` is a parameter.
- `Identifiers.ImporterTileCode`: a tile-code pattern other than `auto` returns the name unchanged, as the code does. The unfinished custom-pattern branch has no further behaviour to model.
- `TableValidation.TableValidator.ValidateTableName`: the class follows the corrected check `TableValidation.Validate`. The source's `$` pattern (core/table_validator.py:45) also accepts and caches a name with a trailing newline such as "t\n"; `TableValidation.ValidateAsWritten` and `TableValidation.TrailingNewlineAccepted` state that.
- `TileImport.SyncLayerImport`, `TileImport.SyncImport`, `TileImport.SyncLayers`, `TileImport.ImportGdbSync`: the importer's layers are imported with the folded field lookup (`ImporterFolded`), the corrected one. As written, a field whose clean name has an upper-case letter is never mapped (core/gdb_importer.py:267-279); `ImporterTable.UppercaseFieldNeverMapped` states that.
- `DataQuery.QueryDataOf`: a spatial filter whose `bbox` key is present with the value None is not modelled; `params.extend(None)` raises there (core/data_importer.py:157-160). The model's absent bbox stands only for a missing key.
- `DataQuery.ImportDefaults`: a key of `options` that is present with the value None is treated as missing. `dict.get` would return None there.
- `DataQuery.ImportRefusals`: only the checks that import_data makes before the import proper are modelled. The import itself is the importer class's, modelled in the tile-import loop.
- `FieldSpec.EmitLayer`: a layer's geometry type is None only when the key is missing, and renders "Unknown". A JSON null under the key is rendered by the source as "None" (scripts/generate_field_spec.py:170-172); the model carries it as the text "None".
- `FieldSpec.EmitLayer`: a NAME statistics entry is taken as it is. The source falls back to the `name` entry also when NAME's entry is an empty dictionary, a case the model's statistics record cannot express.
- `FieldSpec.GenerateFieldSpec`: a category present with the value None, a layer result that is an empty dictionary, and a missing spec or analysis file are not modelled. The function returns False or raises for these.

## Findings

| source | as written | input that shows it | evidently intended | confidence | as-written member | corrected member |
|---|---|---|---|---|---|---|
| scripts/setup_unified_database.py:138-158 | step 1 looks for `<tile>_complete_analysis.json`, where the tile is the first three characters of the name; the parse script writes the file under the whole stem of the geodatabase (scripts/parse_tile_schema.py:533) | a reference geodatabase `F49_2021.gdb`: the parse writes `F49_2021_complete_analysis.json` and step 1 reports the missing `F49_complete_analysis.json` | step 1 looks for the file the parse wrote | not executed | SetupPipeline.Step1AsWrittenExample | SetupPipeline.Step1 |
| core/table_validator.py:19,45 | `re.match` with `^[a-zA-Z_][a-zA-Z0-9_]*$`, whose `$` also matches before a final newline | the name `"t\n"` is accepted and cached | only whole identifiers are accepted | not executed | TableValidation.TrailingNewlineAccepted | TableValidation.AcceptedNamesAreIdentifiers |
| core/gdb_importer.py:220-227,267-279 | the table is created with the unquoted cleaned field names, which PostgreSQL folds to lower case, but the import maps each field by its cleaned name with the case kept | a field `NAME`: the column is `name`, the mapping looks for `NAME` and the field is never inserted | a field is mapped to the column created for it | not executed | ImporterTable.UppercaseFieldExample | ImporterTable.FoldedFieldsAllMapped |
| scripts/parse_tile_schema.py:414-428 | each column definition ends with a `  -- description` comment, and the definitions are then joined with ",\n", so every separating comma lands inside the comment before it | every design: its first line is `    id BIGSERIAL PRIMARY KEY  -- 主键，自动递增的唯一标识符,`, and the CREATE TABLE text has no separator outside a comment | the comma comes before the comment | not executed | TableDesign.CommasInCommentsAsWritten | TableDesign.CorrectedSeparatorsPrecedeComments |
| scripts/create_unified_schema.py:243-263 | a failed common CREATE INDEX is swallowed with `except: pass`, but PostgreSQL has aborted the transaction, so the next field's column query raises and the outer handler reports the layer as failed | a layer whose table has a `gb` column whose index fails: the table is created and committed, yet the layer is an error and a skip | the common indexes are best-effort and the layer is reported created | not executed | UnifiedSchema.FailedCommonIndexSkipsLayer | UnifiedSchema.BestEffortCreates |
| scripts/create_unified_schema.py:281-290 | the geom COMMENT is guarded only by `geometry_type and geometry_type != "Unknown"`, while the geom column also requires `!= "None"`; the failed COMMENT is swallowed without a rollback, the layer is reported created, and the transaction stays aborted | layers `a` with geometry type "None" and `b` analysed, every statement accepted: `a`'s table is committed and `b`'s existence query raises InFailedSqlTransaction, which ends step2 and full_setup | the geom COMMENT is guarded like the geom column | not executed | UnifiedSchema.NoneGeometryThenAnalysedRaises | UnifiedSchema.GuardedCommentsNeverRaise |
| scripts/parse_tile_schema.py:133,375 | `field_info.get("recommended_type", "TEXT")` returns None when the key is present with None, which happens when type inference failed | a field whose profile holds `recommended_type: None` gets the column text `name None` | such a field falls back to TEXT | not executed | TableDesign.UnfinishedFieldTypeAsWritten | TableDesign.FieldColumnType |
