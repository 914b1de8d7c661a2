// Sampling statistics of scripts/analyze_gdb_schema.py (analyze_layer_schema): the first
// sample_size features of a layer are read, and for every schema field the non-null and null
// values are counted and up to ten distinct str() forms are kept.

module LayerSampling {
  import opened Wrappers
  import opened Strings
  import opened Sorting
  import opened Values
  import opened FieldProfile

  /** At most this many distinct sample strings are kept per field. */
  const MaxFieldSamples: nat := 10

  /** The per-field counters while sampling; `samples` is the set of str() forms in first-seen order. */
  datatype SampleTally = SampleTally(hasValue: nat, nulls: nat, samples: seq<string>)

  const EmptySample := SampleTally(0, 0, [])

  function SampleStep(t: SampleTally, v: Option<Value>): SampleTally {
    match v
    case None => t.(nulls := t.nulls + 1)
    case Some(x) =>
      t.(hasValue := t.hasValue + 1,
         samples := if |t.samples| < MaxFieldSamples then AddUnique(t.samples, PyStr(x)) else t.samples)
  }

  /** The counters of one field after reading the features `fs` in order. */
  function FieldSample<G>(fs: seq<Feature<G>>, name: string): SampleTally {
    if |fs| == 0 then EmptySample
    else SampleStep(FieldSample(fs[..|fs| - 1], name), Attribute(fs[|fs| - 1], name))
  }

  /** How many features the loop reads: it stops once `count >= sampleSize`, after at least one feature. */
  function Inspected(total: nat, sampleSize: int): (r: nat)
    ensures r <= total
    ensures total > 0 ==> r >= 1
    ensures sampleSize >= 1 ==> r <= sampleSize
  {
    if total == 0 then 0
    else if sampleSize <= 1 then 1
    else if total < sampleSize then total
    else sampleSize
  }

  datatype FieldStatistics = FieldStatistics(
    hasValueCount: nat,
    nullCount: nat,
    nullPercentage: real,
    sampleValues: seq<string>)

  /** The analysis result; `failed` marks the "error" entry of a layer that cannot be opened. */
  datatype SchemaReport = SchemaReport(
    layerName: string,
    geometryType: Option<string>,
    fields: seq<(string, string)>,
    statistics: seq<(string, FieldStatistics)>,
    totalSamples: nat,
    failed: bool)

  function Statistics(t: SampleTally, count: nat): FieldStatistics {
    FieldStatistics(t.hasValue, t.nulls, Percentage(t.nulls, count), SortStrings(t.samples))
  }

  /** One schema property's statistics over the features read. */
  function StatisticsEntry<G>(prop: (string, string), fs: seq<Feature<G>>): (string, FieldStatistics) {
    (prop.0, Statistics(FieldSample(fs, prop.0), |fs|))
  }

  function StatisticsOf<G>(props: seq<(string, string)>, fs: seq<Feature<G>>): (r: seq<(string, FieldStatistics)>)
    ensures |r| == |props|
    ensures forall j :: 0 <= j < |props| ==> r[j] == StatisticsEntry(props[j], fs)
  {
    seq(|props|, j requires 0 <= j < |props| => StatisticsEntry(props[j], fs))
  }

  /** analyze_layer_schema on a layer (None: it cannot be opened); field types are given as their text. */
  function ReportOf<G>(layerName: string, layer: Option<Layer<G>>, sampleSize: int): SchemaReport {
    match layer
    case None => SchemaReport(layerName, None, [], [], 0, true)
    case Some(l) =>
      var read := l.features[..Inspected(|l.features|, sampleSize)];
      SchemaReport(layerName, l.geometryType, l.properties, StatisticsOf(l.properties, read), |read|, false)
  }

  lemma FieldSampleNext<G>(fs: seq<Feature<G>>, n: nat, name: string)
    requires n < |fs|
    ensures FieldSample(fs[..n + 1], name) == SampleStep(FieldSample(fs[..n], name), Attribute(fs[n], name))
  {
    assert fs[..n + 1][..n] == fs[..n];
  }

  /** Reads one feature into every field's counters. */
  method SampleFeature<G>(props: seq<(string, string)>, fs: seq<Feature<G>>, count: nat,
                          tallies: seq<SampleTally>) returns (next: seq<SampleTally>)
    requires count < |fs|
    requires |tallies| == |props|
    requires forall j :: 0 <= j < |props| ==> tallies[j] == FieldSample(fs[..count], props[j].0)
    ensures |next| == |props|
    ensures forall j :: 0 <= j < |props| ==> next[j] == FieldSample(fs[..count + 1], props[j].0)
  {
    var f := fs[count];
    next := tallies;
    var j := 0;
    while j < |props|
      invariant 0 <= j <= |props|
      invariant |next| == |props|
      invariant forall i :: 0 <= i < j ==> next[i] == FieldSample(fs[..count + 1], props[i].0)
      invariant forall i :: j <= i < |props| ==> next[i] == FieldSample(fs[..count], props[i].0)
    {
      var name := props[j].0;
      FieldSampleNext(fs, count, name);
      var t := next[j];
      match Attribute(f, name) {
        case None =>
          t := t.(nulls := t.nulls + 1);
        case Some(value) =>
          t := t.(hasValue := t.hasValue + 1);
          if |t.samples| < MaxFieldSamples {
            t := t.(samples := AddUnique(t.samples, PyStr(value)));
          }
      }
      next := next[j := t];
      j := j + 1;
    }
  }

  /** The next field's statistics extend those of the fields before it. */
  lemma StatisticsAppend<G>(statistics: seq<(string, FieldStatistics)>, props: seq<(string, string)>,
                            read: seq<Feature<G>>, entry: (string, FieldStatistics))
    requires |statistics| < |props|
    requires forall i :: 0 <= i < |statistics| ==> statistics[i] == StatisticsEntry(props[i], read)
    requires entry == StatisticsEntry(props[|statistics|], read)
    ensures forall i :: 0 <= i < |statistics| + 1 ==> (statistics + [entry])[i] == StatisticsEntry(props[i], read)
  {
    forall i | 0 <= i < |statistics| + 1 ensures (statistics + [entry])[i] == StatisticsEntry(props[i], read) {
      if i < |statistics| { assert (statistics + [entry])[i] == statistics[i]; }
    }
  }

  /** The summary pass: each field's counters, its null percentage and its sorted samples. */
  method SummarizeFields<G>(props: seq<(string, string)>, read: seq<Feature<G>>, tallies: seq<SampleTally>)
    returns (statistics: seq<(string, FieldStatistics)>)
    requires |tallies| == |props|
    requires forall j :: 0 <= j < |props| ==> tallies[j] == FieldSample(read, props[j].0)
    ensures statistics == StatisticsOf(props, read)
  {
    statistics := [];
    var j := 0;
    while j < |props|
      invariant 0 <= j <= |props|
      invariant |statistics| == j
      invariant forall i :: 0 <= i < j ==> statistics[i] == StatisticsEntry(props[i], read)
    {
      var t := tallies[j];
      var entry := (props[j].0, FieldStatistics(t.hasValue, t.nulls, Percentage(t.nulls, |read|), SortStrings(t.samples)));
      StatisticsAppend(statistics, props, read, entry);
      statistics := statistics + [entry];
      j := j + 1;
    }
    var r := StatisticsOf(props, read);
    assert |statistics| == |r|;
    forall i | 0 <= i < |props| ensures statistics[i] == r[i] {}
  }

  /** The sampling loop and the statistics built from it. */
  method AnalyzeLayerSchema<G>(layerName: string, layer: Option<Layer<G>>, sampleSize: int)
    returns (report: SchemaReport)
    ensures report == ReportOf(layerName, layer, sampleSize)
  {
    if layer.None? {
      return SchemaReport(layerName, None, [], [], 0, true);
    }
    var l := layer.value;
    var props, fs := l.properties, l.features;
    var tallies := seq(|props|, j requires 0 <= j < |props| => EmptySample);
    var count := 0;
    while count < |fs|
      invariant 0 <= count <= |fs|
      invariant count == 0 || count < sampleSize
      invariant |tallies| == |props|
      invariant forall j :: 0 <= j < |props| ==> tallies[j] == FieldSample(fs[..count], props[j].0)
    {
      tallies := SampleFeature(props, fs, count, tallies);
      count := count + 1;
      if count >= sampleSize {
        break;
      }
    }
    assert count == Inspected(|fs|, sampleSize);
    var statistics := SummarizeFields(props, fs[..count], tallies);
    report := SchemaReport(layerName, l.geometryType, props, statistics, count, false);
  }

  // ---------------------------------------------------------------------------
  // Properties

  /** `s` is the str() form of field `name` in one of the features. */
  ghost predicate IsFormIn<G>(fs: seq<Feature<G>>, name: string, s: string) {
    exists i :: 0 <= i < |fs| && name in fs[i].properties && PyStr(fs[i].properties[name]) == s
  }

  /** The sample set stays within ten distinct forms of the values read; the two counters add up. */
  ghost predicate SampleHolds<G>(fs: seq<Feature<G>>, name: string, t: SampleTally) {
    && t.hasValue + t.nulls == |fs|
    && |t.samples| <= MaxFieldSamples
    && (forall a, b :: 0 <= a < b < |t.samples| ==> t.samples[a] != t.samples[b])
    && (forall s :: s in t.samples ==> IsFormIn(fs, name, s))
  }

  lemma SampleHoldsStep<G>(fs: seq<Feature<G>>, name: string)
    requires |fs| > 0
    requires SampleHolds(fs[..|fs| - 1], name, FieldSample(fs[..|fs| - 1], name))
    ensures SampleHolds(fs, name, FieldSample(fs, name))
  {
    var p := fs[..|fs| - 1];
    var t := FieldSample(p, name);
    var t' := FieldSample(fs, name);
    var f := fs[|fs| - 1];
    forall s | s in t'.samples ensures IsFormIn(fs, name, s) {
      if s in t.samples {
        assert IsFormIn(p, name, s);
        var i :| 0 <= i < |p| && name in p[i].properties && PyStr(p[i].properties[name]) == s;
        assert fs[i] == p[i];
      } else {
        assert name in f.properties && PyStr(f.properties[name]) == s;
      }
    }
  }

  lemma {:induction false} FieldSampleHolds<G>(fs: seq<Feature<G>>, name: string)
    ensures SampleHolds(fs, name, FieldSample(fs, name))
  {
    if |fs| > 0 {
      FieldSampleHolds(fs[..|fs| - 1], name);
      SampleHoldsStep(fs, name);
    }
  }

  /** At most `sampleSize` features are read (one at least, when there is one), and total_samples counts them. */
  lemma InspectedBounds<G>(layerName: string, l: Layer<G>, sampleSize: int)
    ensures var r := ReportOf(layerName, Some(l), sampleSize);
      && r.totalSamples <= |l.features|
      && (sampleSize >= 1 ==> r.totalSamples <= sampleSize)
      && (|l.features| > 0 ==> r.totalSamples >= 1)
      && (sampleSize >= |l.features| ==> r.totalSamples == |l.features|)
  {
  }

  /**
   * Every schema field gets statistics: its counters add up to total_samples, and its samples are
   * few, distinct, sorted and seen.
   */
  lemma StatisticsFacts<G>(layerName: string, l: Layer<G>, sampleSize: int)
    ensures var r := ReportOf(layerName, Some(l), sampleSize);
      var read := l.features[..r.totalSamples];
      && r.fields == l.properties
      && |r.statistics| == |l.properties|
      && forall j :: 0 <= j < |r.statistics| ==>
        var st := r.statistics[j].1;
        && r.statistics[j].0 == l.properties[j].0
        && st.hasValueCount + st.nullCount == r.totalSamples
        && st.nullPercentage == Percentage(st.nullCount, r.totalSamples)
        && |st.sampleValues| <= MaxFieldSamples
        && (forall a, b :: 0 <= a < b < |st.sampleValues| ==>
              LexLe(st.sampleValues[a], st.sampleValues[b]) && st.sampleValues[a] != st.sampleValues[b])
        && (forall s :: s in st.sampleValues ==> IsFormIn(read, l.properties[j].0, s))
  {
    var r := ReportOf(layerName, Some(l), sampleSize);
    var read := l.features[..r.totalSamples];
    forall j | 0 <= j < |r.statistics|
      ensures var st := r.statistics[j].1;
        && st.hasValueCount + st.nullCount == r.totalSamples
        && |st.sampleValues| <= MaxFieldSamples
        && (forall a, b :: 0 <= a < b < |st.sampleValues| ==>
              LexLe(st.sampleValues[a], st.sampleValues[b]) && st.sampleValues[a] != st.sampleValues[b])
        && (forall s :: s in st.sampleValues ==> IsFormIn(read, l.properties[j].0, s))
    {
      var name := l.properties[j].0;
      var t := FieldSample(read, name);
      FieldSampleHolds(read, name);
      SortStringsSorted(t.samples);
      SortStringsDistinct(t.samples);
      forall s | s in SortStrings(t.samples) ensures s in t.samples {
        assert s in multiset(SortStrings(t.samples));
      }
    }
  }

  /** A layer that cannot be opened yields the error entry with nothing sampled. */
  lemma UnreadableLayerReport<G>(layerName: string, sampleSize: int)
    ensures var r := ReportOf<G>(layerName, None, sampleSize);
      r.failed && r.totalSamples == 0 && r.statistics == []
  {
  }
}
