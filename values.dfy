// Attribute values and features as fiona delivers them, and the two renderings the pipeline
// applies to a value: Python's str() and the text bound to an INSERT parameter.

module Values {
  import opened Wrappers
  import opened Strings

  /**
   * A non-None attribute value. Python's float and bytes renderings (the shortest round-trip
   * repr, the b'...' form) are carried by the value itself; VOther is any other object, such
   * as a date, with its str() text.
   */
  datatype Value =
    | VInt(i: int)
    | VBool(b: bool)
    | VFloat(x: real, repr: string)
    | VStr(s: string)
    | VBytes(data: seq<bv8>, repr: string)
    | VOther(repr: string)

  /** str(value). */
  function PyStr(v: Value): string {
    match v
    case VInt(i) => IntToString(i)
    case VBool(b) => if b then "True" else "False"
    case VFloat(_, repr) => repr
    case VStr(s) => s
    case VBytes(_, repr) => repr
    case VOther(repr) => repr
  }

  /** isinstance(value, (int, float)); bool counts, as it is a subclass of int. */
  predicate IsNumeric(v: Value) { v.VInt? || v.VBool? || v.VFloat? }

  /** The number a numeric value compares as. */
  function NumericValue(v: Value): real
    requires IsNumeric(v)
  {
    match v
    case VInt(i) => i as real
    case VBool(b) => if b then 1.0 else 0.0
    case VFloat(x, _) => x
  }

  /**
   * The text bound for a non-None attribute in an INSERT: bytes decoded as UTF-8 with errors
   * ignored (the decoder is a parameter), strings as they are, anything else through str().
   */
  function InsertText(v: Value, decodeUtf8: seq<bv8> -> string): (r: string)
    ensures v.VStr? ==> r == v.s
    ensures v.VBytes? ==> r == decodeUtf8(v.data)
    ensures !v.VStr? && !v.VBytes? ==> r == PyStr(v)
  {
    match v
    case VBytes(data, _) => decodeUtf8(data)
    case VStr(s) => s
    case _ => PyStr(v)
  }

  /** An integer bound for insertion reads back as the same integer. */
  lemma InsertTextOfIntParses(i: int, decodeUtf8: seq<bv8> -> string)
    ensures ParsePyInt(InsertText(VInt(i), decodeUtf8)) == Some(i)
  {
    IntToStringRoundTrip(i);
  }

  /** A feature: its geometry mapping (None when absent) and its attributes; a missing key reads as None. */
  datatype Feature<G> = Feature(geometry: Option<G>, properties: map<string, Value>)

  /** props.get(name). */
  function Attribute<G>(f: Feature<G>, name: string): (r: Option<Value>)
    ensures r.Some? <==> name in f.properties
  {
    if name in f.properties then Some(f.properties[name]) else None
  }

  /** The values of one attribute across a feature stream. */
  function Column<G>(features: seq<Feature<G>>, name: string): (r: seq<Option<Value>>)
    ensures |r| == |features|
    ensures forall i :: 0 <= i < |features| ==> r[i] == Attribute(features[i], name)
  {
    seq(|features|, i requires 0 <= i < |features| => Attribute(features[i], name))
  }

  /**
   * An opened layer: its schema (the declared geometry type, None where fiona reports None;
   * the properties in schema order with their fiona type text) and its features.
   */
  datatype Layer<G> = Layer(
    geometryType: Option<string>,
    properties: seq<(string, string)>,
    features: seq<Feature<G>>)
}
