// Layer profiling of scripts/parse_tile_schema.py (analyze_layer_completely): a counting pass
// over the features, one field profile per schema property, and a count of the features that
// carry a geometry.

module LayerProfile {
  import opened Wrappers
  import opened Values
  import opened FieldProfile

  /** The layer summary; `failed` marks the "error" entry of a layer that cannot be opened. */
  datatype LayerInfo = LayerInfo(
    layerName: string,
    geometryType: Option<string>,
    totalRecords: nat,
    fields: seq<(string, Profile)>,
    fieldCount: nat,
    hasGeometry: nat,
    nullGeometry: nat,
    failed: bool)

  /** The number of features whose geometry is present. */
  function GeometryCount<G>(fs: seq<Feature<G>>): (r: nat)
    ensures r <= |fs|
  {
    if |fs| == 0 then 0
    else GeometryCount(fs[..|fs| - 1]) + (if fs[|fs| - 1].geometry.Some? then 1 else 0)
  }

  /** The `fields` entry of one schema property (name, fiona type), profiled over the whole layer. */
  function FieldEntry<G>(prop: (string, string), fs: seq<Feature<G>>): (string, Profile)
  {
    (prop.0, ProfileOf(prop.0, prop.1, |fs|, Some(Column(fs, prop.0))))
  }

  /** The profile of every schema property, in schema order. */
  function FieldProfiles<G>(props: seq<(string, string)>, fs: seq<Feature<G>>): (r: seq<(string, Profile)>)
    ensures |r| == |props|
    ensures forall i :: 0 <= i < |props| ==> r[i] == FieldEntry(props[i], fs)
  {
    seq(|props|, i requires 0 <= i < |props| => FieldEntry(props[i], fs))
  }

  /** What analyze_layer_completely reports for a layer (None: the layer cannot be opened). */
  function LayerInfoOf<G>(layerName: string, layer: Option<Layer<G>>): LayerInfo
  {
    match layer
    case None => LayerInfo(layerName, None, 0, [], 0, 0, 0, true)
    case Some(l) =>
      var n := GeometryCount(l.features);
      LayerInfo(layerName, l.geometryType, |l.features|, FieldProfiles(l.properties, l.features),
                |l.properties|, n, |l.features| - n, false)
  }

  /** The counting pass: one per feature. */
  method CountFeatures<G>(fs: seq<Feature<G>>) returns (totalRecords: nat)
    ensures totalRecords == |fs|
  {
    totalRecords := 0;
    var k := 0;
    while k < |fs|
      invariant 0 <= k <= |fs|
      invariant totalRecords == k
    {
      totalRecords := totalRecords + 1;
      k := k + 1;
    }
  }

  /** A sequence holding each property's entry in schema order is the layer's field profiles. */
  lemma SameEntries<G>(fields: seq<(string, Profile)>, props: seq<(string, string)>, fs: seq<Feature<G>>)
    requires |fields| == |props|
    requires forall i :: 0 <= i < |props| ==> fields[i] == FieldEntry(props[i], fs)
    ensures fields == FieldProfiles(props, fs)
  {
    var r := FieldProfiles(props, fs);
    forall i | 0 <= i < |props| ensures fields[i] == r[i] {}
  }

  /** The entry of the next property extends the entries of those before it. */
  lemma EntriesAppend<G>(fields: seq<(string, Profile)>, props: seq<(string, string)>, fs: seq<Feature<G>>,
                         entry: (string, Profile))
    requires |fields| < |props|
    requires forall i :: 0 <= i < |fields| ==> fields[i] == FieldEntry(props[i], fs)
    requires entry == FieldEntry(props[|fields|], fs)
    ensures forall i :: 0 <= i < |fields| + 1 ==> (fields + [entry])[i] == FieldEntry(props[i], fs)
  {
    forall i | 0 <= i < |fields| + 1 ensures (fields + [entry])[i] == FieldEntry(props[i], fs) {
      if i < |fields| { assert (fields + [entry])[i] == fields[i]; }
    }
  }

  /** One schema property profiled over the whole layer. */
  method ProfileField<G>(prop: (string, string), fs: seq<Feature<G>>, totalRecords: nat)
    returns (entry: (string, Profile))
    requires totalRecords == |fs|
    ensures entry == FieldEntry(prop, fs)
  {
    var p := AnalyzeFieldCompletely(prop.0, prop.1, totalRecords, Some(Column(fs, prop.0)));
    entry := (prop.0, p);
  }

  /** One field profile per schema property, each over the whole layer. */
  method ProfileFields<G>(props: seq<(string, string)>, fs: seq<Feature<G>>, totalRecords: nat)
    returns (fields: seq<(string, Profile)>)
    requires totalRecords == |fs|
    ensures fields == FieldProfiles(props, fs)
  {
    fields := [];
    var j := 0;
    while j < |props|
      invariant 0 <= j <= |props|
      invariant |fields| == j
      invariant forall i :: 0 <= i < j ==> fields[i] == FieldEntry(props[i], fs)
    {
      var entry := ProfileField(props[j], fs, totalRecords);
      EntriesAppend(fields, props, fs, entry);
      fields := fields + [entry];
      j := j + 1;
    }
    SameEntries(fields, props, fs);
  }

  /** The geometry pass: features with and without a geometry. */
  method CountGeometries<G>(fs: seq<Feature<G>>) returns (hasGeometry: nat, nullGeometry: nat)
    ensures hasGeometry == GeometryCount(fs)
    ensures hasGeometry + nullGeometry == |fs|
  {
    hasGeometry, nullGeometry := 0, 0;
    var i := 0;
    while i < |fs|
      invariant 0 <= i <= |fs|
      invariant hasGeometry == GeometryCount(fs[..i])
      invariant hasGeometry + nullGeometry == i
    {
      assert fs[..i + 1][..i] == fs[..i];
      if fs[i].geometry.Some? {
        hasGeometry := hasGeometry + 1;
      } else {
        nullGeometry := nullGeometry + 1;
      }
      i := i + 1;
    }
    assert fs[..|fs|] == fs;
  }

  /** analyze_layer_completely: count, profile each field, then count geometries. */
  method AnalyzeLayerCompletely<G>(layerName: string, layer: Option<Layer<G>>) returns (info: LayerInfo)
    ensures info == LayerInfoOf(layerName, layer)
    ensures info.hasGeometry + info.nullGeometry == info.totalRecords
  {
    if layer.None? {
      return LayerInfo(layerName, None, 0, [], 0, 0, 0, true);
    }
    var l := layer.value;
    var totalRecords := CountFeatures(l.features);
    var fields := ProfileFields(l.properties, l.features, totalRecords);
    var hasGeometry, nullGeometry := CountGeometries(l.features);
    info := LayerInfo(layerName, l.geometryType, totalRecords, fields, |l.properties|,
                      hasGeometry, nullGeometry, false);
  }

  /** Every field of a readable layer is profiled over all of the layer's features, each read once. */
  lemma FieldProfilesCoverLayer<G>(layerName: string, l: Layer<G>)
    ensures var info := LayerInfoOf(layerName, Some(l));
      && info.fieldCount == |info.fields| == |l.properties|
      && forall i :: 0 <= i < |info.fields| ==>
        && info.fields[i].0 == l.properties[i].0
        && info.fields[i].1.totalRecords == info.totalRecords
        && (info.fields[i].1.error.None? || info.fields[i].1.error == Some(AllSamplesEmpty))
        && info.fields[i].1.tally.nullCount + info.fields[i].1.tally.notNullCount == info.totalRecords
  {
    var info := LayerInfoOf(layerName, Some(l));
    forall i | 0 <= i < |info.fields|
      ensures info.fields[i].1.tally.nullCount + info.fields[i].1.tally.notNullCount == info.totalRecords
    {
      TallyCounts(Column(l.features, l.properties[i].0));
    }
  }
}
