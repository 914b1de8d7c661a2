// Column types chosen for a fiona field type ("str:80", "int64", ...). Three variants exist:
// the parse script's (scripts/parse_tile_schema.py), the unified schema's
// (scripts/create_unified_schema.py) and the importer class's (core/gdb_importer.py).

module TypeInference {
  import opened Wrappers
  import opened Strings

  datatype SqlType =
    | Integer | BigInt | DoublePrecision | Real | Text | Date | Time | Timestamp | Boolean | Bytea
    | Varchar(width: int)
  {
    function ToSql(): string {
      match this
      case Integer => "INTEGER"
      case BigInt => "BIGINT"
      case DoublePrecision => "DOUBLE PRECISION"
      case Real => "REAL"
      case Text => "TEXT"
      case Date => "DATE"
      case Time => "TIME"
      case Timestamp => "TIMESTAMP"
      case Boolean => "BOOLEAN"
      case Bytea => "BYTEA"
      case Varchar(n) => "VARCHAR(" + IntToString(n) + ")"
    }
  }

  /** The base type: the text before the first ':' in lower case. */
  function BaseType(fionaType: string): (r: string)
    ensures ':' !in r
  {
    Lower(BeforeFirst(fionaType, ':'))
  }

  /** The declared width text, split(':')[1], when the type has a ':'. */
  function WidthText(fionaType: string): Option<string>
  {
    if ':' in fionaType then Some(SecondSegment(fionaType, ':')) else None
  }

  /** The fixed fiona-to-PostgreSQL table the three variants share; None off the table. */
  function MappedType(base: string): (r: Option<SqlType>)
    ensures r.Some? ==> !r.value.Varchar?
  {
    if base == "int" || base == "int32" then Some(Integer)
    else if base == "int64" then Some(BigInt)
    else if base == "float" || base == "float64" then Some(DoublePrecision)
    else if base == "float32" then Some(Real)
    else if base == "str" || base == "string" then Some(Text)
    else if base == "date" then Some(Date)
    else if base == "time" then Some(Time)
    else if base == "datetime" then Some(Timestamp)
    else if base == "bool" then Some(Boolean)
    else if base == "bytes" then Some(Bytea)
    else None
  }

  /** The mapped type with TEXT for anything off the table. */
  function TableType(base: string): SqlType
  {
    MappedType(base).GetOr(Text)
  }

  // ---------------------------------------------------------------------------
  // core/gdb_importer.py

  /** _get_pg_field_type: the width is dropped and the table decides, TEXT by default. */
  function ImporterPgType(fionaType: string): (r: SqlType)
    ensures !r.Varchar?
  {
    TableType(BaseType(fionaType))
  }

  /** The importer ignores a declared width: "b:w" maps like "b". */
  lemma {:induction false} ImporterPgTypeIgnoresWidth(base: string, width: string)
    requires ':' !in base
    ensures ImporterPgType(base + ":" + width) == ImporterPgType(base)
  {
    var t := base + ":" + width;
    assert t == base + (":" + width);
    BeforeFirstOfJoined(base, ":" + width);
    assert BeforeFirst(base, ':') == base;
    assert BaseType(t) == BaseType(base);
  }

  lemma {:induction false} BeforeFirstOfJoined(a: string, b: string)
    requires ':' !in a && |b| > 0 && b[0] == ':'
    ensures BeforeFirst(a + b, ':') == a
    decreases |a|
  {
    var s := a + b;
    if |a| > 0 {
      assert s[0] == a[0] && a[0] != ':';
      assert s[1..] == a[1..] + b;
      BeforeFirstOfJoined(a[1..], b);
      assert BeforeFirst(s, ':') == [a[0]] + BeforeFirst(s[1..], ':');
      assert a == [a[0]] + a[1..];
    } else {
      assert s == b;
    }
  }

  /** A lower-case base without a width maps straight through the table. */
  lemma BaseTypeOfPlainBase(base: string)
    requires ':' !in base && forall i :: 0 <= i < |base| ==> !IsAsciiUpper(base[i])
    ensures BaseType(base) == base
  {
    assert BeforeFirst(base, ':') == base;
    assert Lower(base) == base;
  }

  lemma ImporterPgTypeInt64()
    ensures ImporterPgType("int64") == BigInt
  {
    BaseTypeOfPlainBase("int64");
  }

  lemma ImporterPgTypeFloat32()
    ensures ImporterPgType("float32") == Real
  {
    BaseTypeOfPlainBase("float32");
    TableTypeFloat32();
  }

  lemma TableTypeFloat32()
    ensures TableType("float32") == Real
  {
  }

  lemma ImporterPgTypeStr()
    ensures ImporterPgType("str") == Text
  {
    BaseTypeOfPlainBase("str");
  }

  lemma ImporterPgTypeStrWidth()
    ensures ImporterPgType("str:80") == Text
  {
    var t := "str" + ":" + "80";
    ImporterPgTypeIgnoresWidth("str", "80");
    assert t == "str:80";
    ImporterPgTypeStr();
  }

  // ---------------------------------------------------------------------------
  // Width tiers

  /** The VARCHAR widths the tiers offer above 50. */
  const UpperTiers: seq<int> := [100, 255, 500]

  /** The sample-length tiers: VARCHAR(50/100/255/500), then TEXT. */
  function LengthTier(n: int): (r: SqlType)
    ensures r.Varchar? ==> n <= r.width && r.width in [50] + UpperTiers
    ensures r.Varchar? ==> forall t :: t in [50] + UpperTiers && n <= t ==> r.width <= t
    ensures !r.Varchar? ==> r == Text && n > 500
  {
    if n <= 50 then Varchar(50)
    else if n <= 100 then Varchar(100)
    else if n <= 255 then Varchar(255)
    else if n <= 500 then Varchar(500)
    else Text
  }

  /** The unified schema's declared-width tiers: the width itself up to 50, then 100/255/500, then TEXT. */
  function DeclaredWidthTier(n: int): (r: SqlType)
    ensures n <= 50 ==> r == Varchar(n)
    ensures n > 50 && r.Varchar? ==> n <= r.width && r.width in UpperTiers
    ensures n > 50 && r.Varchar? ==> forall t :: t in UpperTiers && n <= t ==> r.width <= t
    ensures !r.Varchar? ==> r == Text && n > 500
  {
    if n <= 50 then Varchar(n)
    else if n <= 100 then Varchar(100)
    else if n <= 255 then Varchar(255)
    else if n <= 500 then Varchar(500)
    else Text
  }

  /** The parse script's declared-width tiers: the width up to 255, VARCHAR(1000) up to 1000, then TEXT. */
  function ParseWidthTier(n: int): (r: SqlType)
    ensures r.Varchar? ==> n <= r.width
    ensures n <= 255 ==> r == Varchar(n)
    ensures 255 < n <= 1000 ==> r == Varchar(1000)
    ensures n > 1000 <==> r == Text
  {
    if n <= 255 then Varchar(n)
    else if n <= 1000 then Varchar(1000)
    else Text
  }

  /** Whether a declared width applies: a non-empty width text that int() accepts. */
  function DeclaredWidth(fionaType: string): (r: Option<int>)
    ensures r.Some? ==> WidthText(fionaType).Some? && |WidthText(fionaType).value| > 0
    ensures r.Some? ==> ParsePyInt(WidthText(fionaType).value) == r
  {
    match WidthText(fionaType)
    case None => None
    case Some(w) => if |w| == 0 then None else ParsePyInt(w)
  }

  // ---------------------------------------------------------------------------
  // scripts/create_unified_schema.py

  /**
   * get_postgresql_type of the unified schema. For a text-like type (TEXT by the table,
   * including an unknown base) a declared width picks a tier; otherwise a positive profiled
   * max_length picks a length tier; otherwise the table type stands.
   */
  function UnifiedPgType(fionaType: string, maxLength: int): (r: SqlType)
    ensures TableType(BaseType(fionaType)) != Text ==> r == TableType(BaseType(fionaType))
    ensures TableType(BaseType(fionaType)) == Text && DeclaredWidth(fionaType).Some? ==>
      r == DeclaredWidthTier(DeclaredWidth(fionaType).value)
    ensures TableType(BaseType(fionaType)) == Text && DeclaredWidth(fionaType).None? && maxLength > 0 ==>
      r == LengthTier(maxLength)
    ensures TableType(BaseType(fionaType)) == Text && DeclaredWidth(fionaType).None? && maxLength <= 0 ==>
      r == Text
  {
    // The source also tests for the "str" and "string" bases, which the table maps to TEXT anyway.
    var pg := TableType(BaseType(fionaType));
    if pg == Text then
      match DeclaredWidth(fionaType)
      case Some(n) => DeclaredWidthTier(n)
      case None => if maxLength > 0 then LengthTier(maxLength) else pg
    else pg
  }

  /** Every profiled value fits: a chosen VARCHAR is at least as wide as the longest value seen. */
  lemma UnifiedPgTypeFitsProfile(fionaType: string, maxLength: int)
    requires DeclaredWidth(fionaType).None?
    requires UnifiedPgType(fionaType, maxLength).Varchar?
    ensures maxLength <= UnifiedPgType(fionaType, maxLength).width
  {
  }

  // ---------------------------------------------------------------------------
  // scripts/parse_tile_schema.py

  /** The length of the longest non-empty sample; None when every sample is empty. */
  function LongestSample(samples: seq<string>): (r: Option<nat>)
    ensures r.Some? ==> r.value > 0
    ensures r.Some? ==> forall i :: 0 <= i < |samples| ==> |samples[i]| <= r.value
    ensures r.Some? ==> exists i :: 0 <= i < |samples| && |samples[i]| == r.value
    ensures r.None? <==> forall i :: 0 <= i < |samples| ==> samples[i] == ""
  {
    if |samples| == 0 then None
    else
      var rest := LongestSample(samples[1..]);
      var here := |samples[0]|;
      var r: Option<nat> :=
        match rest
        case None => if here > 0 then Some(here) else None
        case Some(m) => Some(if here > m then here else m);
      assert forall i :: 1 <= i < |samples| ==> samples[i] == samples[1..][i - 1];
      assert r.Some? ==> |samples[0]| == r.value || exists i :: 1 <= i < |samples| && |samples[i]| == r.value;
      r
  }

  /** A field name the ID rule applies to: its upper-cased name contains "ID". */
  predicate IsIdName(fieldName: string) {
    Contains(Upper(fieldName), "ID")
  }

  /**
   * get_postgresql_type of the parse script; None where max() over the non-empty samples
   * raises because every sample is empty.
   */
  function ParseSchemaPgType(fionaType: string, fieldName: string, samples: seq<string>): (r: Option<SqlType>)
    ensures IsIdName(fieldName) ==> r.Some?
    ensures IsIdName(fieldName) && BaseType(fionaType) in ["int", "int32", "int64"] ==> r == Some(BigInt)
    ensures IsIdName(fieldName) && BaseType(fionaType) !in ["int", "int32", "int64"] ==>
      r == Some(if |samples| > 0 && ParsePyInt(samples[0]).Some? then Varchar(50) else Varchar(100))
    ensures !IsIdName(fieldName) && TableType(BaseType(fionaType)) != Text ==>
      r == Some(TableType(BaseType(fionaType)))
    ensures !IsIdName(fieldName) && TableType(BaseType(fionaType)) == Text && DeclaredWidth(fionaType).Some? ==>
      r == Some(ParseWidthTier(DeclaredWidth(fionaType).value))
    ensures r.None? <==>
      !IsIdName(fieldName) && TableType(BaseType(fionaType)) == Text && DeclaredWidth(fionaType).None? &&
      |samples| > 0 && LongestSample(samples).None?
  {
    var base := BaseType(fionaType);
    if IsIdName(fieldName) then
      if base in ["int", "int32", "int64"] then Some(BigInt)
      else if |samples| > 0 && ParsePyInt(samples[0]).Some? then Some(Varchar(50))
      else Some(Varchar(100))
    else
      var pg := TableType(base);
      if pg == Text then
        match DeclaredWidth(fionaType)
        case Some(n) => Some(ParseWidthTier(n))
        case None =>
          if |samples| == 0 then Some(pg)
          else
            match LongestSample(samples)
            case None => None
            case Some(m) => Some(LengthTier(m))
      else Some(pg)
  }

  /** Without a declared width, a text column the samples choose holds every sample. */
  lemma ParseSchemaPgTypeFitsSamples(fionaType: string, fieldName: string, samples: seq<string>)
    requires !IsIdName(fieldName) && DeclaredWidth(fionaType).None?
    requires ParseSchemaPgType(fionaType, fieldName, samples).Some?
    requires ParseSchemaPgType(fionaType, fieldName, samples).value.Varchar?
    ensures forall i :: 0 <= i < |samples| ==>
      |samples[i]| <= ParseSchemaPgType(fionaType, fieldName, samples).value.width
  {
  }

  /** An integer ID field is BIGINT whatever its samples. */
  lemma IntegerIdIsBigInt(fieldName: string, samples: seq<string>)
    requires IsIdName(fieldName)
    ensures ParseSchemaPgType("int64", fieldName, samples) == Some(BigInt)
    ensures ParseSchemaPgType("int32", fieldName, samples) == Some(BigInt)
  {
    BaseTypeOfPlainBase("int64");
    BaseTypeOfPlainBase("int32");
  }
}
