// scripts/generate_field_spec.py: the description of one field, the PostgreSQL type shown for
// it, the grouping of the spec's layers by category, and the line list of the document. The
// rendering of a percentage with one decimal (:.1f) is a parameter.

module FieldSpec {
  import opened Wrappers
  import opened Strings
  import opened Sorting

  // ---------------------------------------------------------------------------
  // get_field_description

  /** The fixed table of descriptions, by exact, case-sensitive field name. */
  const Descriptions: seq<(string, string)> := [
    ("GB", "GB/T 2260-2007 中华人民共和国行政区划代码，6位数字代码"),
    ("PAC", "属性分类代码（Property Attribute Code），用于标识要素的分类"),
    ("NAME", "名称字段，存储要素的中文名称（可能为空）"),
    ("PINYIN", "拼音字段，存储名称的拼音（通常为空）"),
    ("SHAPE_Length", "几何形状的边界长度（度），使用PostGIS的ST_Length计算"),
    ("SHAPE_Area", "几何形状的面积（度²），使用PostGIS的ST_Area计算，需转换为平方公里"),
    ("HYDC", "水系代码（Hydrography Code），用于标识水系要素的唯一代码"),
    ("PERIOD", "时期/时段信息，如河流的丰水期、枯水期等"),
    ("VOL", "容量/规模，如水库的容量等级（大、中、小）"),
    ("RN", "路线编号（Route Number），如国道、省道编号"),
    ("RTEG", "道路等级（Road Grade），如一级、二级、三级、四级、等外"),
    ("TYPE", "类型字段，存储要素的类型分类"),
    ("BRGLEV", "桥梁等级（Bridge Level），1表示一级，2表示二级等"),
    ("ANGLE", "角度，用于标注要素的旋转角度（度）"),
    ("CLASS", "分类代码，用于标识地名或要素的分类"),
    ("GNID", "地名ID（Geographic Name ID），12位数字代码"),
    ("XZNAME", "行政名称，所属行政区划名称"),
    ("BNO", "边界编号（Boundary Number），用于标识边界点"),
    ("ELEV", "高程值（Elevation），单位：米")]

  /** The text of the first entry named `name`. */
  function Lookup(table: seq<(string, string)>, name: string): Option<string> {
    if |table| == 0 then None
    else if table[0].0 == name then Some(table[0].1)
    else Lookup(table[1..], name)
  }

  /** The lookup finds a name exactly when the table has it, and then the text of its first entry. */
  lemma {:induction false} LookupFacts(table: seq<(string, string)>, name: string)
    ensures Lookup(table, name).Some? <==> exists i :: 0 <= i < |table| && table[i].0 == name
    ensures Lookup(table, name).Some? ==>
      exists i :: (0 <= i < |table| && table[i] == (name, Lookup(table, name).value)
                   && forall j :: 0 <= j < i ==> table[j].0 != name)
  {
    if |table| > 0 && table[0].0 != name {
      var rest := table[1..];
      LookupFacts(rest, name);
      if exists i :: 0 <= i < |table| && table[i].0 == name {
        var i :| 0 <= i < |table| && table[i].0 == name;
        assert rest[i - 1] == table[i];
      }
      if Lookup(rest, name).Some? {
        var i :| (0 <= i < |rest| && rest[i] == (name, Lookup(rest, name).value)
                  && forall j :: 0 <= j < i ==> rest[j].0 != name);
        assert table[i + 1] == rest[i];
        forall j | 0 <= j < i + 1 ensures table[j].0 != name {
          if j > 0 {
            assert table[j] == rest[j - 1];
          }
        }
      }
    }
  }

  function KnownDescription(name: string): Option<string> {
    Lookup(Descriptions, name)
  }

  const StringFieldText: string := "字符串字段，最大长度"
  const UnknownWidth: string := "未知"
  const IntegerFieldText: string := "整数字段（32位）"
  const FloatFieldText: string := "浮点数字段"
  const OtherTypeText: string := "字段类型: "

  /** The description inferred from the type when the name is not in the table. */
  function TypeText(fieldType: string): string {
    if StartsWith(fieldType, "str") then
      StringFieldText + (if ':' in fieldType then SecondSegment(fieldType, ':') else UnknownWidth)
    else if fieldType == "int32" then IntegerFieldText
    else if fieldType == "float" then FloatFieldText
    else OtherTypeText + fieldType
  }

  function BaseDescription(name: string, fieldType: string): string {
    match KnownDescription(name)
    case Some(text) => text
    case None => TypeText(fieldType)
  }

  const HighNullOpen: string := "（注意：空值率"
  const HighNullClose: string := "%，该字段可能经常为空）"
  const NullOpen: string := "（空值率"
  const NullClose: string := "%）"
  const SampleOpen: string := "，示例值："
  const SampleSeparator: string := "、"

  /** The null-rate note: a warning above 50%, the bare rate above 0, nothing otherwise. */
  function NullSuffix(nullPct: real, fmt: real -> string): string {
    if nullPct > 50.0 then HighNullOpen + fmt(nullPct) + HighNullClose
    else if nullPct > 0.0 then NullOpen + fmt(nullPct) + NullClose
    else ""
  }

  /** The sample values, listed only when there are one to five of them. */
  function SampleSuffix(samples: seq<string>): string {
    if 0 < |samples| <= 5 then SampleOpen + Join(SampleSeparator, samples) else ""
  }

  /** The statistics of a field; a field without any is the empty dictionary: 0% and no samples. */
  datatype FieldStats = FieldStats(nullPercentage: real, sampleValues: seq<string>)

  const NoStats: FieldStats := FieldStats(0.0, [])

  /** get_field_description. */
  function FieldDescription(name: string, fieldType: string, stats: FieldStats, fmt: real -> string): string {
    BaseDescription(name, fieldType) + NullSuffix(stats.nullPercentage, fmt) + SampleSuffix(stats.sampleValues)
  }

  lemma PrefixOfConcat(a: string, b: string)
    ensures StartsWith(a + b, a)
  {
    assert (a + b)[..|a|] == a;
  }

  /**
   * get_field_description: a name in the table begins with its fixed text whatever the type;
   * any other name begins with the text for its type; the null note and the samples follow, each
   * only in its range.
   */
  lemma FieldDescriptionParts(name: string, fieldType: string, stats: FieldStats, fmt: real -> string)
    ensures var r := FieldDescription(name, fieldType, stats, fmt);
      && (KnownDescription(name).Some? ==> StartsWith(r, KnownDescription(name).value))
      && (KnownDescription(name).None? ==> StartsWith(r, TypeText(fieldType)))
      && (stats.nullPercentage <= 0.0 && !(0 < |stats.sampleValues| <= 5) ==> r == BaseDescription(name, fieldType))
      && (stats.nullPercentage > 50.0 ==>
            r == BaseDescription(name, fieldType) + HighNullOpen + fmt(stats.nullPercentage) + HighNullClose
                 + SampleSuffix(stats.sampleValues))
      && (0.0 < stats.nullPercentage <= 50.0 ==>
            r == BaseDescription(name, fieldType) + NullOpen + fmt(stats.nullPercentage) + NullClose
                 + SampleSuffix(stats.sampleValues))
      && (0 < |stats.sampleValues| <= 5 ==>
            EndsWith(r, SampleOpen + Join(SampleSeparator, stats.sampleValues)))
  {
    var r := FieldDescription(name, fieldType, stats, fmt);
    var base := BaseDescription(name, fieldType);
    var rest := NullSuffix(stats.nullPercentage, fmt) + SampleSuffix(stats.sampleValues);
    assert r == base + rest;
    PrefixOfConcat(base, rest);
    if 0 < |stats.sampleValues| <= 5 {
      var tail := SampleSuffix(stats.sampleValues);
      var head := base + NullSuffix(stats.nullPercentage, fmt);
      assert r == head + tail;
      assert r[|r| - |tail|..] == tail;
    }
  }

  /** "str:" + w splits at its colon into w. */
  lemma StrWithWidth(width: string)
    requires ':' !in width
    ensures ':' in "str:" + width
    ensures SecondSegment("str:" + width, ':') == width
  {
    var t := "str:" + width;
    assert t[3] == ':';
    assert t[1..] == "tr:" + width;
    assert t[2..] == "r:" + width;
    assert t[3..] == ":" + width;
    assert (":" + width)[1..] == width;
    calc {
      AfterFirst(t, ':');
      AfterFirst(t[1..], ':');
      AfterFirst(t[1..][1..], ':');
      { assert t[1..][1..] == t[2..]; }
      AfterFirst(t[2..], ':');
      { assert t[2..][1..] == t[3..]; }
      AfterFirst(t[3..], ':');
      width;
    }
  }

  /** A string type with a width is described with that width; without one, with 未知. */
  lemma StringTypeText(width: string)
    requires ':' !in width
    ensures TypeText("str:" + width) == StringFieldText + width
    ensures TypeText("str") == StringFieldText + UnknownWidth
  {
    var t := "str:" + width;
    assert t[..3] == "str";
    StrWithWidth(width);
  }

  // ---------------------------------------------------------------------------
  // The type shown in the field tables

  /** str:N is VARCHAR(N), str and str: are TEXT, int32 INTEGER, float DOUBLE PRECISION, others raw. */
  function PgTypeDisplay(fieldType: string): string {
    if StartsWith(fieldType, "str") then
      var width := if ':' in fieldType then SecondSegment(fieldType, ':') else "";
      if width != "" then "VARCHAR(" + width + ")" else "TEXT"
    else if fieldType == "int32" then "INTEGER"
    else if fieldType == "float" then "DOUBLE PRECISION"
    else fieldType
  }

  /** The type display on each kind of type string. */
  lemma PgTypeDisplayCases(width: string, other: string)
    requires ':' !in width && width != ""
    requires !StartsWith(other, "str") && other != "int32" && other != "float"
    ensures PgTypeDisplay("str:" + width) == "VARCHAR(" + width + ")"
    ensures PgTypeDisplay("str") == "TEXT"
    ensures PgTypeDisplay("str:") == "TEXT"
    ensures PgTypeDisplay("int32") == "INTEGER"
    ensures PgTypeDisplay("float") == "DOUBLE PRECISION"
    ensures PgTypeDisplay(other) == other
  {
    var t := "str:" + width;
    assert t[..3] == "str";
    StrWithWidth(width);
    var e := "str:";
    assert e[..3] == "str" && e[3] == ':';
    StrWithWidth("");
    assert "str:" + "" == e;
  }

  // ---------------------------------------------------------------------------
  // Grouping the spec's layers by category

  /** One entry of layer_mapping: its category (if any), table name and description. */
  datatype MappingInfo = MappingInfo(category: Option<string>, tableName: string, description: string)

  datatype LayerEntry = LayerEntry(layerCode: string, tableName: string, description: string)

  const OtherCategory: string := "其他"

  function CategoryOf(info: MappingInfo): string {
    info.category.GetOr(OtherCategory)
  }

  function EntryOf(m: (string, MappingInfo)): LayerEntry {
    LayerEntry(m.0, m.1.tableName, m.1.description)
  }

  /** The categories dict, with its keys in first-seen order. */
  datatype Grouping = Grouping(order: seq<string>, groups: map<string, seq<LayerEntry>>)

  function GroupStep(g: Grouping, m: (string, MappingInfo)): Grouping {
    var c := CategoryOf(m.1);
    if c in g.groups then Grouping(g.order, g.groups[c := g.groups[c] + [EntryOf(m)]])
    else Grouping(g.order + [c], g.groups[c := [EntryOf(m)]])
  }

  function GroupOf(mapping: seq<(string, MappingInfo)>): Grouping {
    if |mapping| == 0 then Grouping([], map[])
    else GroupStep(GroupOf(mapping[..|mapping| - 1]), mapping[|mapping| - 1])
  }

  /** The layers of one category, in mapping order. */
  function InCategory(mapping: seq<(string, MappingInfo)>, c: string): seq<LayerEntry> {
    if |mapping| == 0 then []
    else
      var last := mapping[|mapping| - 1];
      InCategory(mapping[..|mapping| - 1], c) + (if CategoryOf(last.1) == c then [EntryOf(last)] else [])
  }

  /** The grouping loop of generate_field_spec. */
  method GroupByCategory(mapping: seq<(string, MappingInfo)>) returns (g: Grouping)
    ensures g == GroupOf(mapping)
  {
    var order: seq<string> := [];
    var groups: map<string, seq<LayerEntry>> := map[];
    var i := 0;
    while i < |mapping|
      invariant 0 <= i <= |mapping|
      invariant Grouping(order, groups) == GroupOf(mapping[..i])
    {
      assert mapping[..i + 1][..i] == mapping[..i];
      var (code, info) := mapping[i];
      var category := if info.category.Some? then info.category.value else OtherCategory;
      var entry := LayerEntry(code, info.tableName, info.description);
      if category in groups {
        groups := groups[category := groups[category] + [entry]];
      } else {
        order := order + [category];
        groups := groups[category := [entry]];
      }
      i := i + 1;
    }
    assert mapping[..|mapping|] == mapping;
    g := Grouping(order, groups);
  }


  /**
   * The grouping puts every layer under its category, 其他 when it has none, in mapping order;
   * the keys, listed once each, are exactly the categories that occur.
   */
  lemma {:induction false} GroupOfFacts(mapping: seq<(string, MappingInfo)>)
    ensures var g := GroupOf(mapping);
      && Distinct(g.order)
      && (forall c :: c in g.order <==> c in g.groups)
      && (forall c :: c in g.groups ==> g.groups[c] == InCategory(mapping, c))
      && (forall c :: c !in g.groups ==> InCategory(mapping, c) == [])
  {
    if |mapping| > 0 {
      var p := mapping[..|mapping| - 1];
      GroupOfFacts(p);
    }
  }

  /** A category holds a layer exactly when that layer's category, defaulted to 其他, is it. */
  lemma {:induction false} InCategoryMembers(mapping: seq<(string, MappingInfo)>, c: string, e: LayerEntry)
    ensures e in InCategory(mapping, c) <==>
      exists i :: 0 <= i < |mapping| && CategoryOf(mapping[i].1) == c && EntryOf(mapping[i]) == e
  {
    if |mapping| > 0 {
      var p := mapping[..|mapping| - 1];
      InCategoryMembers(p, c, e);
      if e in InCategory(p, c) {
        var i :| 0 <= i < |p| && CategoryOf(p[i].1) == c && EntryOf(p[i]) == e;
        assert mapping[i] == p[i];
      }
      if exists i :: 0 <= i < |mapping| && CategoryOf(mapping[i].1) == c && EntryOf(mapping[i]) == e {
        var i :| 0 <= i < |mapping| && CategoryOf(mapping[i].1) == c && EntryOf(mapping[i]) == e;
        if i < |p| {
          assert p[i] == mapping[i];
        }
      }
    }
  }

  function TableNameOf(e: LayerEntry): string {
    e.tableName
  }

  /** The sections in output order: categories sorted, and the tables of each sorted by table_name. */
  function Sections(g: Grouping): seq<(string, seq<LayerEntry>)> {
    var cats := SortStrings(g.order);
    seq(|cats|, i requires 0 <= i < |cats| =>
      (cats[i], SortBy(if cats[i] in g.groups then g.groups[cats[i]] else [], TableNameOf)))
  }

  /** The categories of the document are the grouping's keys, each once, in ascending order. */
  lemma SectionsOrdered(g: Grouping)
    requires Distinct(g.order)
    ensures var s := Sections(g);
      && |s| == |g.order|
      && (forall a, b :: 0 <= a < b < |s| ==> LexLe(s[a].0, s[b].0) && s[a].0 != s[b].0)
      && (forall c :: c in g.order ==> exists a :: 0 <= a < |s| && s[a].0 == c)
  {
    var cats := SortStrings(g.order);
    SortStringsSorted(g.order);
    DistinctPermutation(g.order, cats);
    var s := Sections(g);
    forall c | c in g.order ensures exists a :: 0 <= a < |s| && s[a].0 == c {
      assert c in multiset(cats);
      var a :| 0 <= a < |cats| && cats[a] == c;
      assert s[a].0 == c;
    }
  }

  /** Under each category come its layers, ordered by table_name. */
  lemma SectionMembers(g: Grouping, a: nat)
    requires a < |Sections(g)|
    ensures var s := Sections(g)[a];
      && SortedBy(s.1, TableNameOf)
      && multiset(s.1) == multiset(if s.0 in g.groups then g.groups[s.0] else [])
  {
    var cats := SortStrings(g.order);
    var members := if cats[a] in g.groups then g.groups[cats[a]] else [];
    SortBySorted(members, TableNameOf);
    SortByPermutation(members, TableNameOf);
  }

  /**
   * The document lists each category that occurs once, in ascending order, and under it
   * exactly its layers, ordered by table_name.
   */
  lemma SectionsFacts(mapping: seq<(string, MappingInfo)>)
    ensures var s := Sections(GroupOf(mapping));
      && (forall a, b :: 0 <= a < b < |s| ==> LexLe(s[a].0, s[b].0) && s[a].0 != s[b].0)
      && (forall a :: 0 <= a < |s| ==>
            SortedBy(s[a].1, TableNameOf) && multiset(s[a].1) == multiset(InCategory(mapping, s[a].0)))
      && (forall i :: 0 <= i < |mapping| ==> exists a :: 0 <= a < |s| && s[a].0 == CategoryOf(mapping[i].1))
  {
    var g := GroupOf(mapping);
    GroupOfFacts(mapping);
    SectionsOrdered(g);
    var s := Sections(g);
    forall a | 0 <= a < |s|
      ensures SortedBy(s[a].1, TableNameOf) && multiset(s[a].1) == multiset(InCategory(mapping, s[a].0))
    {
      SectionMembers(g, a);
    }
    forall i | 0 <= i < |mapping| ensures exists a :: 0 <= a < |s| && s[a].0 == CategoryOf(mapping[i].1) {
      var c := CategoryOf(mapping[i].1);
      InCategoryMembers(mapping, c, EntryOf(mapping[i]));
      assert c in g.order;
    }
  }

  // ---------------------------------------------------------------------------
  // The lines of the document

  /**
   * One layer of the analysis: its fields and their types, their statistics, its geometry type.
   * `geometryType` is None only when the key is missing; a JSON null under the key is rendered
   * by `str()` as "None", so it is carried as `Some("None")`.
   */
  datatype LayerResult = LayerResult(layerName: string, fields: seq<(string, string)>,
                                     fieldStats: map<string, FieldStats>, geometryType: Option<string>)

  /** layer_data: the analysed layers by name, later ones winning, nameless ones dropped. */
  function LayerData(layers: seq<LayerResult>): map<string, LayerResult> {
    if |layers| == 0 then map[]
    else
      var m := LayerData(layers[..|layers| - 1]);
      var l := layers[|layers| - 1];
      if l.layerName != "" then m[l.layerName := l] else m
  }

  function FieldKey(f: (string, string)): string {
    f.0
  }

  function StatsFor(fieldStats: map<string, FieldStats>, name: string): FieldStats {
    if name in fieldStats then fieldStats[name] else NoStats
  }

  /** One row of a layer's field table: the lower-cased name, the type shown, the description. */
  function FieldRow(f: (string, string), fieldStats: map<string, FieldStats>, fmt: real -> string): string {
    "| `" + Lower(f.0) + "` | " + PgTypeDisplay(f.1) + " | "
      + FieldDescription(f.0, f.1, StatsFor(fieldStats, f.0), fmt) + " |"
  }

  /** The rows of a sequence of items, one per item, in order. */
  function MapRows<T>(xs: seq<T>, row: T -> string): seq<string>
  {
    if |xs| == 0 then [] else MapRows(xs[..|xs| - 1], row) + [row(xs[|xs| - 1])]
  }

  /** One row per item, the row of the item in the same position. */
  lemma {:induction false} MapRowsPointwise<T>(xs: seq<T>, row: T -> string)
    ensures |MapRows(xs, row)| == |xs|
    ensures forall i :: 0 <= i < |xs| ==> MapRows(xs, row)[i] == row(xs[i])
  {
    if |xs| > 0 {
      var p := xs[..|xs| - 1];
      MapRowsPointwise(p, row);
      forall i | 0 <= i < |p| ensures MapRows(xs, row)[i] == row(xs[i]) {
        assert MapRows(xs, row)[i] == MapRows(p, row)[i] && p[i] == xs[i];
      }
    }
  }

  /** Reading one more item adds its row. */
  lemma MapRowsNext<T>(xs: seq<T>, i: nat, row: T -> string)
    requires i < |xs|
    ensures MapRows(xs[..i + 1], row) == MapRows(xs[..i], row) + [row(xs[i])]
  {
    assert xs[..i + 1][..i] == xs[..i];
  }

  function RowsOf(fields: seq<(string, string)>, fieldStats: map<string, FieldStats>, fmt: real -> string)
    : seq<string>
  {
    MapRows(fields, f => FieldRow(f, fieldStats, fmt))
  }

  /** The row of one field: its lower-cased name, its displayed type and its description. */
  method BuildFieldRow(f: (string, string), fieldStats: map<string, FieldStats>, fmt: real -> string)
    returns (row: string)
    ensures row == FieldRow(f, fieldStats, fmt)
  {
    var (name, fieldType) := f;
    var stats := StatsFor(fieldStats, name);
    var desc := FieldDescription(name, fieldType, stats, fmt);
    row := "| `" + Lower(name) + "` | " + PgTypeDisplay(fieldType) + " | " + desc + " |";
  }

  /** The field rows of a layer, in field-name order. */
  method FieldRows(fields: seq<(string, string)>, fieldStats: map<string, FieldStats>, fmt: real -> string)
    returns (rows: seq<string>)
    ensures rows == RowsOf(SortBy(fields, FieldKey), fieldStats, fmt)
  {
    var sorted := SortBy(fields, FieldKey);
    rows := [];
    var i := 0;
    while i < |sorted|
      invariant 0 <= i <= |sorted|
      invariant rows == RowsOf(sorted[..i], fieldStats, fmt)
    {
      MapRowsNext(sorted, i, f => FieldRow(f, fieldStats, fmt));
      var row := BuildFieldRow(sorted[i], fieldStats, fmt);
      rows := rows + [row];
      i := i + 1;
    }
    assert sorted[..|sorted|] == sorted;
  }

  /**
   * The field rows come in ascending order of the field names, one per field, each naming its
   * field in lower case.
   */
  lemma FieldRowsOrdered(fields: seq<(string, string)>, fieldStats: map<string, FieldStats>, fmt: real -> string)
    ensures var sorted := SortBy(fields, FieldKey);
      var rows := RowsOf(sorted, fieldStats, fmt);
      && SortedBy(sorted, FieldKey) && multiset(sorted) == multiset(fields)
      && |rows| == |fields|
      && (forall i :: 0 <= i < |rows| ==> StartsWith(rows[i], "| `" + Lower(sorted[i].0) + "` | "))
  {
    var sorted := SortBy(fields, FieldKey);
    SortBySorted(fields, FieldKey);
    SortByPermutation(fields, FieldKey);
    var rows := RowsOf(sorted, fieldStats, fmt);
    MapRowsPointwise(sorted, f => FieldRow(f, fieldStats, fmt));
    forall i | 0 <= i < |rows| ensures StartsWith(rows[i], "| `" + Lower(sorted[i].0) + "` | ") {
      RowNamesField(sorted[i], fieldStats, fmt);
    }
  }

  lemma RowNamesField(f: (string, string), fieldStats: map<string, FieldStats>, fmt: real -> string)
    ensures StartsWith(FieldRow(f, fieldStats, fmt), "| `" + Lower(f.0) + "` | ")
  {
    var head := "| `" + Lower(f.0) + "` | ";
    var rest := PgTypeDisplay(f.1) + " | " + FieldDescription(f.0, f.1, StatsFor(fieldStats, f.0), fmt) + " |";
    assert FieldRow(f, fieldStats, fmt) == head + rest;
    PrefixOfConcat(head, rest);
  }

  const NameHint: string :=
    "**重要提示**: `name`字段空值率较高，不能仅通过名称查询，建议结合空间查询和`pac`/`gb`等分类代码使用。"

  /** The layer has a NAME field, or one whose lower-cased name is "name". */
  predicate HasNameField(fields: seq<(string, string)>) {
    exists i :: 0 <= i < |fields| && (fields[i].0 == "NAME" || Lower(fields[i].0) == "name")
  }

  /** The name hint: the NAME statistics, else the name ones, with a null rate above 50%. */
  predicate NeedsNameHint(l: LayerResult) {
    && HasNameField(l.fields)
    && (if "NAME" in l.fieldStats then l.fieldStats["NAME"].nullPercentage > 50.0
        else "name" in l.fieldStats && l.fieldStats["name"].nullPercentage > 50.0)
  }

  /** The lines for one layer of a category. */
  function LayerLines(e: LayerEntry, data: map<string, LayerResult>, fmt: real -> string): seq<string> {
    var head := ["#### " + e.tableName + " (" + e.description + ")", ""];
    if e.layerCode !in data then head + ["*注：图层 " + e.layerCode + " 的分析数据未找到*", ""]
    else
      var l := data[e.layerCode];
      head + ["**几何类型**: " + l.geometryType.GetOr("Unknown"), "", "| 字段名 | 类型 | 说明 |", "|--------|------|------|"]
        + RowsOf(SortBy(l.fields, FieldKey), l.fieldStats, fmt) + [""]
        + (if NeedsNameHint(l) then [NameHint, ""] else [])
  }

  function LayersLines(es: seq<LayerEntry>, data: map<string, LayerResult>, fmt: real -> string): seq<string> {
    if |es| == 0 then []
    else LayersLines(es[..|es| - 1], data, fmt) + LayerLines(es[|es| - 1], data, fmt)
  }

  function SectionLines(s: (string, seq<LayerEntry>), data: map<string, LayerResult>, fmt: real -> string)
    : seq<string>
  {
    ["### " + s.0, ""] + LayersLines(s.1, data, fmt)
  }

  function AllSectionLines(ss: seq<(string, seq<LayerEntry>)>, data: map<string, LayerResult>, fmt: real -> string)
    : seq<string>
  {
    if |ss| == 0 then []
    else AllSectionLines(ss[..|ss| - 1], data, fmt) + SectionLines(ss[|ss| - 1], data, fmt)
  }

  /** The fixed lines that open the document: the title and the common fields. */
  const HeaderLines: seq<string> := [
    "# 数据字段说明",
    "",
    "本文档基于实际GDB图层分析结果生成，详细说明1:100万基础地理信息数据中所有表的字段含义，帮助LLM正确理解和使用字段。",
    "",
    "## 通用字段",
    "",
    "所有表都包含以下通用字段：",
    "",
    "| 字段名 | 类型 | 说明 |",
    "|--------|------|------|",
    "| `id` | INTEGER | 主键，自动递增的唯一标识符 |",
    "| `geom` | GEOMETRY | PostGIS几何对象，存储空间数据（点、线、面） |",
    "| `tile_code` | VARCHAR(10) | 图幅代码，1:100万图幅编号（如F49、F50、G49、G50等） |",
    "",
    "## 各表字段说明",
    ""]

  /** The lines of the document that generate_field_spec writes, joined with newlines. */
  function DocumentOf(mapping: seq<(string, MappingInfo)>, layers: seq<LayerResult>, fmt: real -> string)
    : seq<string>
  {
    HeaderLines + AllSectionLines(Sections(GroupOf(mapping)), LayerData(layers), fmt)
  }

  /** The lines of one layer: its heading, then the missing-data note or its field table. */
  method EmitLayer(e: LayerEntry, data: map<string, LayerResult>, fmt: real -> string) returns (lines: seq<string>)
    ensures lines == LayerLines(e, data, fmt)
  {
    lines := ["#### " + e.tableName + " (" + e.description + ")", ""];
    if e.layerCode !in data {
      lines := lines + ["*注：图层 " + e.layerCode + " 的分析数据未找到*", ""];
    } else {
      var l := data[e.layerCode];
      lines := lines + ["**几何类型**: " + l.geometryType.GetOr("Unknown"), "", "| 字段名 | 类型 | 说明 |", "|--------|------|------|"];
      var rows := FieldRows(l.fields, l.fieldStats, fmt);
      lines := lines + rows + [""];
      if NeedsNameHint(l) {
        lines := lines + [NameHint, ""];
      }
    }
  }

  lemma AppendAssoc(a: seq<string>, b: seq<string>, c: seq<string>)
    ensures (a + b) + c == a + (b + c)
  {
  }

  lemma AllSectionLinesNext(ss: seq<(string, seq<LayerEntry>)>, i: nat, data: map<string, LayerResult>,
                            fmt: real -> string)
    requires i < |ss|
    ensures AllSectionLines(ss[..i + 1], data, fmt) == AllSectionLines(ss[..i], data, fmt) + SectionLines(ss[i], data, fmt)
  {
    assert ss[..i + 1][..i] == ss[..i];
  }

  lemma LayersLinesNext(es: seq<LayerEntry>, j: nat, data: map<string, LayerResult>, fmt: real -> string)
    requires j < |es|
    ensures LayersLines(es[..j + 1], data, fmt) == LayersLines(es[..j], data, fmt) + LayerLines(es[j], data, fmt)
  {
    assert es[..j + 1][..j] == es[..j];
  }

  /** The lines of one category: its heading, then each of its layers in the given order. */
  method EmitCategory(s: (string, seq<LayerEntry>), data: map<string, LayerResult>, fmt: real -> string)
    returns (lines: seq<string>)
    ensures lines == SectionLines(s, data, fmt)
  {
    var heading := ["### " + s.0, ""];
    lines := heading;
    var j := 0;
    while j < |s.1|
      invariant 0 <= j <= |s.1|
      invariant lines == heading + LayersLines(s.1[..j], data, fmt)
    {
      LayersLinesNext(s.1, j, data, fmt);
      var part := EmitLayer(s.1[j], data, fmt);
      ghost var done := LayersLines(s.1[..j], data, fmt);
      AppendAssoc(heading, done, part);
      lines := lines + part;
      j := j + 1;
    }
    assert s.1[..|s.1|] == s.1;
  }

  /** generate_field_spec, without the file reads and the file write. */
  method GenerateFieldSpec(mapping: seq<(string, MappingInfo)>, layers: seq<LayerResult>, fmt: real -> string)
    returns (lines: seq<string>)
    ensures lines == DocumentOf(mapping, layers, fmt)
  {
    var g := GroupByCategory(mapping);
    var data := LayerData(layers);
    var sections := Sections(g);
    lines := HeaderLines;
    var i := 0;
    while i < |sections|
      invariant 0 <= i <= |sections|
      invariant lines == HeaderLines + AllSectionLines(sections[..i], data, fmt)
    {
      AllSectionLinesNext(sections, i, data, fmt);
      var part := EmitCategory(sections[i], data, fmt);
      AppendAssoc(HeaderLines, AllSectionLines(sections[..i], data, fmt), part);
      lines := lines + part;
      i := i + 1;
    }
    assert sections[..|sections|] == sections;
  }
}
