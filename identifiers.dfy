// Names the pipeline derives from layer, field and geodatabase names: PostgreSQL identifiers
// (scripts/import_all_tiles.py, the inline cleaners of the parse and schema scripts, and the
// importer class's own variant) and tile codes such as "F49".

module Identifiers {
  import opened Wrappers
  import opened Strings

  /** PostgreSQL's identifier length limit, used as the default truncation length. */
  const MaxIdentifierLength: nat := 63

  /** Column names the unified tables reserve for themselves. */
  const ReservedColumns: set<string> := {"id", "geom", "tile_code"}

  predicate IsSeparator(c: char) { c == '-' || c == '.' || c == ' ' }

  /**
   * The clean-identifier character rewrite: '-' and '.' become '_', and so does ' ' when
   * `spaces` is set (the parse script's table-name cleaner leaves spaces alone).
   */
  function Underscored(s: string, spaces: bool): (r: string)
    ensures |r| == |s|
    ensures forall i :: 0 <= i < |s| ==>
      r[i] == (if s[i] == '-' || s[i] == '.' || (spaces && s[i] == ' ') then '_' else s[i])
  {
    seq(|s|, i requires 0 <= i < |s| =>
      if s[i] == '-' || s[i] == '.' || (spaces && s[i] == ' ') then '_' else s[i])
  }

  /** The shared tail of every cleaner: '_' before a leading digit, then cut to maxLength. */
  function PrefixAndTruncate(s: string, maxLength: nat): (r: string)
    ensures |r| <= maxLength
    ensures |r| > 0 ==> !IsDigit(r[0])
    ensures forall i :: 0 <= i < |r| ==> r[i] == '_' || r[i] in s
  {
    var p := if |s| > 0 && IsDigit(s[0]) then "_" + s else s;
    if |p| > maxLength then p[..maxLength] else p
  }

  /** A name every cleaner leaves unchanged: short enough, lower case, no separator, no leading digit. */
  predicate IsCleanIdentifier(s: string, maxLength: nat) {
    && |s| <= maxLength
    && (|s| > 0 ==> !IsDigit(s[0]))
    && (forall i :: 0 <= i < |s| ==> !IsSeparator(s[i]) && !IsAsciiUpper(s[i]))
  }

  /** clean_identifier of the pipeline scripts, and the field-name cleaner of the parse and schema scripts. */
  function CleanIdentifier(name: string, maxLength: nat): (r: string)
    ensures IsCleanIdentifier(r, maxLength)
  {
    PrefixAndTruncate(Underscored(Lower(name), true), maxLength)
  }

  /** get_table_name of the pipeline: the layer name in lower case and nothing else. */
  function GetTableName(layerName: string): (r: string)
    ensures |r| == |layerName|
    ensures forall i :: 0 <= i < |r| ==> !IsAsciiUpper(r[i])
    ensures forall i :: 0 <= i < |r| ==> (r[i] == layerName[i] || IsAsciiUpper(layerName[i]))
    ensures forall i :: 0 <= i < |r| ==>
      r[i] == if IsAsciiUpper(layerName[i]) then (layerName[i] as int + 32) as char else layerName[i]
  {
    Lower(layerName)
  }

  /** The importer class's _clean_identifier: the same rewrite, but the case is kept. */
  function ImporterCleanIdentifier(name: string, maxLength: nat): (r: string)
    ensures |r| <= maxLength
    ensures |r| > 0 ==> !IsDigit(r[0])
    ensures forall i :: 0 <= i < |r| ==> !IsSeparator(r[i])
  {
    PrefixAndTruncate(Underscored(name, true), maxLength)
  }

  /** Cleaning the lowered name with the importer's variant is the pipeline's clean_identifier. */
  lemma ImporterCleanOfLowered(name: string, maxLength: nat)
    ensures ImporterCleanIdentifier(Lower(name), maxLength) == CleanIdentifier(name, maxLength)
  {
  }

  /** The clean identifiers are exactly the fixed points of CleanIdentifier. */
  lemma CleanIdentifierFixedPoints(s: string, maxLength: nat)
    ensures CleanIdentifier(s, maxLength) == s <==> IsCleanIdentifier(s, maxLength)
  {
    if IsCleanIdentifier(s, maxLength) {
      var u := Underscored(Lower(s), true);
      assert Lower(s) == s;
      assert u == s;
    }
  }

  /** Cleaning twice is cleaning once. */
  lemma CleanIdentifierIdempotent(s: string, maxLength: nat)
    ensures CleanIdentifier(CleanIdentifier(s, maxLength), maxLength) == CleanIdentifier(s, maxLength)
  {
    CleanIdentifierFixedPoints(CleanIdentifier(s, maxLength), maxLength);
  }

  /**
   * The field column name used by the table design and the unified schema: the clean name,
   * with "_field" appended to the three reserved column names.
   */
  function DesignColumnName(fieldName: string): (r: string)
    ensures r !in ReservedColumns
    ensures forall i :: 0 <= i < |r| ==> !IsSeparator(r[i]) && !IsAsciiUpper(r[i])
    ensures |r| > 0 ==> !IsDigit(r[0])
    ensures CleanIdentifier(fieldName, MaxIdentifierLength) !in ReservedColumns ==>
      r == CleanIdentifier(fieldName, MaxIdentifierLength)
  {
    var c := CleanIdentifier(fieldName, MaxIdentifierLength);
    if c in ReservedColumns then c + "_field" else c
  }

  /**
   * The parse script's default table name: the text after the last '_', lower case, with '-'
   * and '.' (but not ' ') rewritten, digit-prefixed and cut to 63.
   */
  function ParseTableName(layerName: string): (r: string)
    ensures |r| <= MaxIdentifierLength
    ensures |r| > 0 ==> !IsDigit(r[0])
    ensures forall i :: 0 <= i < |r| ==> r[i] != '-' && r[i] != '.' && !IsAsciiUpper(r[i])
  {
    PrefixAndTruncate(Underscored(Lower(AfterLast(layerName, '_')), false), MaxIdentifierLength)
  }

  /** Without a space in the last segment, the parse script's table name is the clean identifier of that segment. */
  lemma ParseTableNameIsCleanSegment(layerName: string)
    requires ' ' !in AfterLast(layerName, '_')
    ensures ParseTableName(layerName) == CleanIdentifier(AfterLast(layerName, '_'), MaxIdentifierLength)
  {
    var seg := Lower(AfterLast(layerName, '_'));
    assert Underscored(seg, false) == Underscored(seg, true);
  }

  /** Spaces survive the parse script's table-name cleaner. */
  lemma ParseTableNameKeepsSpaces()
    ensures ParseTableName("A B") == "a b"
  {
    assert AfterLast("A B", '_') == "A B" by { assert '_' !in "A B"; }
    assert Lower("A B") == "a b";
    assert Underscored("a b", false) == "a b";
    assert PrefixAndTruncate("a b", MaxIdentifierLength) == "a b";
  }

  // ---------------------------------------------------------------------------
  // Tile codes

  /** A tile code: 'F' or 'G' followed by two digits. */
  predicate IsTileCode(s: string) {
    |s| == 3 && (s[0] == 'F' || s[0] == 'G') && IsDigit(s[1]) && IsDigit(s[2])
  }

  /** The tile rule shared by the pipeline and the importer: keep a leading tile code, otherwise the whole name. */
  function TileRule(name: string): (r: string)
    ensures IsTileCode(r) || r == name
    ensures |r| <= |name| && r == name[..|r|]
  {
    if |name| >= 3 && IsTileCode(name[..3]) then name[..3] else name
  }

  /** A name that begins with a tile code yields that code. */
  lemma TileRuleOfPrefixedName(code: string, rest: string)
    requires IsTileCode(code)
    ensures TileRule(code + rest) == code
  {
    assert (code + rest)[..3] == code;
  }

  /** A name that does not begin with a tile code is its own tile code. */
  lemma TileRuleOfOtherName(name: string)
    requires !(|name| >= 3 && IsTileCode(name[..3]))
    ensures TileRule(name) == name
  {
  }

  /** The rule is idempotent: a derived tile code derives itself. */
  lemma TileRuleIdempotent(name: string)
    ensures TileRule(TileRule(name)) == TileRule(name)
  {
    var r := TileRule(name);
    if IsTileCode(r) {
      assert r[..3] == r;
    }
  }

  /** extract_tile_code of the pipeline: every ".gdb" is removed, then the tile rule applies. */
  function ExtractTileCode(gdbName: string): (r: string)
    ensures var stripped := ReplaceAll(gdbName, ".gdb", "");
      (IsTileCode(r) || r == stripped) && |r| <= |stripped| && r == stripped[..|r|]
  {
    TileRule(ReplaceAll(gdbName, ".gdb", ""))
  }

  /** A geodatabase directory name without other dots: its tile code is the tile rule on the stem. */
  lemma ExtractTileCodeOfGdbName(stem: string)
    requires '.' !in stem
    ensures ExtractTileCode(stem + ".gdb") == TileRule(stem)
  {
    ReplaceAllDropsSuffix(stem, ".gdb");
  }

  lemma ExtractTileCodeOfTiledName()
    ensures ExtractTileCode("F49_2021.gdb") == "F49"
  {
    assert "F49_2021" + ".gdb" == "F49_2021.gdb";
    ExtractTileCodeOfGdbName("F49_2021");
    assert "F49" + "_2021" == "F49_2021";
    TileRuleOfPrefixedName("F49", "_2021");
  }

  lemma ExtractTileCodeOfPlainName()
    ensures ExtractTileCode("sample.gdb") == "sample"
  {
    assert "sample" + ".gdb" == "sample.gdb";
    ExtractTileCodeOfGdbName("sample");
    assert !IsTileCode("sample"[..3]);
    TileRuleOfOtherName("sample");
  }

  lemma ExtractTileCodeExample()
    ensures ExtractTileCode("F49_2021.gdb") == "F49"
    ensures ExtractTileCode("sample.gdb") == "sample"
  {
    ExtractTileCodeOfTiledName();
    ExtractTileCodeOfPlainName();
  }

  /**
   * The importer's _extract_tile_code: under the "auto" pattern (the default when none is
   * configured) the tile rule; any other pattern returns the name unchanged.
   */
  function ImporterTileCode(gdbName: string, pattern: Option<string>): (r: string)
    ensures pattern.GetOr("auto") == "auto" ==> r == TileRule(gdbName)
    ensures pattern.GetOr("auto") != "auto" ==> r == gdbName
  {
    if pattern.GetOr("auto") == "auto" then TileRule(gdbName) else gdbName
  }

  /** The importer's _get_table_name: None where the mapping entry has no "table_name" (a KeyError). */
  function ImporterTableName(layerName: string, layerMapping: map<string, Option<string>>): (r: Option<string>)
    ensures AfterLast(Upper(layerName), '_') in layerMapping ==>
      r == layerMapping[AfterLast(Upper(layerName), '_')]
    ensures AfterLast(Upper(layerName), '_') !in layerMapping ==>
      r == Some(CleanIdentifier(layerName, MaxIdentifierLength))
  {
    var layerCode := AfterLast(Upper(layerName), '_');
    if layerCode in layerMapping then layerMapping[layerCode]
    else
      ImporterCleanOfLowered(layerName, MaxIdentifierLength);
      Some(ImporterCleanIdentifier(Lower(layerName), MaxIdentifierLength))
  }
}
