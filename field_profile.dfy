// Field and layer profiling of scripts/parse_tile_schema.py: one pass over a field's values
// collecting counters, distinct str() forms and ranges, then a recommended type and
// recommended constraints.

module FieldProfile {
  import opened Wrappers
  import opened Strings
  import opened Sorting
  import opened Values
  import opened TypeInference

  /** The counters and ranges accumulated over the values of one field. */
  datatype Tally = Tally(
    nullCount: nat,
    notNullCount: nat,
    unique: seq<string>,       // the distinct str() forms, in first-seen order
    isNumeric: bool,
    isInteger: bool,
    isFloat: bool,
    isString: bool,
    minValue: Option<Value>,
    maxValue: Option<Value>,
    maxLength: nat,
    minLength: Option<nat>)

  const EmptyTally := Tally(0, 0, [], false, false, false, false, None, None, 0, None)

  /** Adding to a Python set kept in first-seen order. */
  function AddUnique(u: seq<string>, s: string): (r: seq<string>)
    ensures s in r && forall x :: x in u ==> x in r
    ensures forall x :: x in r ==> x == s || x in u
    ensures |r| <= |u| + 1
  {
    if s in u then u else u + [s]
  }

  /** What one value does to the tally. */
  function TallyStep(t: Tally, v: Option<Value>): Tally
  {
    match v
    case None => t.(nullCount := t.nullCount + 1)
    case Some(x) =>
      var t1 := t.(notNullCount := t.notNullCount + 1, unique := AddUnique(t.unique, PyStr(x)));
      if IsNumeric(x) then
        t1.(isNumeric := true,
            isInteger := t1.isInteger || !x.VFloat?,
            isFloat := t1.isFloat || x.VFloat?,
            minValue := if t1.minValue.None? || !IsNumeric(t1.minValue.value)
                           || NumericValue(x) < NumericValue(t1.minValue.value) then Some(x) else t1.minValue,
            maxValue := if t1.maxValue.None? || !IsNumeric(t1.maxValue.value)
                           || NumericValue(x) > NumericValue(t1.maxValue.value) then Some(x) else t1.maxValue)
      else if x.VStr? then
        var n := |x.s|;
        t1.(isString := true,
            maxLength := if n > t1.maxLength then n else t1.maxLength,
            minLength := if t1.minLength.None? || n < t1.minLength.value then Some(n) else t1.minLength)
      else
        var n := |PyStr(x)|;
        t1.(maxLength := if n > t1.maxLength then n else t1.maxLength)
  }

  /** The tally after a sequence of values, read in order. */
  function TallyOf(vs: seq<Option<Value>>): Tally
  {
    if |vs| == 0 then EmptyTally else TallyStep(TallyOf(vs[..|vs| - 1]), vs[|vs| - 1])
  }

  predicate IsNumericAt(vs: seq<Option<Value>>, i: int)
    requires 0 <= i < |vs|
  {
    vs[i].Some? && IsNumeric(vs[i].value)
  }

  predicate IsStringAt(vs: seq<Option<Value>>, i: int)
    requires 0 <= i < |vs|
  {
    vs[i].Some? && vs[i].value.VStr?
  }

  /** Reading one more value is one more step. */
  lemma TallyOfNext(vs: seq<Option<Value>>, i: nat)
    requires i < |vs|
    ensures TallyOf(vs[..i + 1]) == TallyStep(TallyOf(vs[..i]), vs[i])
  {
    assert vs[..i + 1][..i] == vs[..i];
  }

  // ---------------------------------------------------------------------------
  // What the tally holds

  /** The last value read and the values before it. */
  lemma SplitLast(vs: seq<Option<Value>>)
    requires |vs| > 0
    ensures vs == vs[..|vs| - 1] + [vs[|vs| - 1]]
    ensures TallyOf(vs) == TallyStep(TallyOf(vs[..|vs| - 1]), vs[|vs| - 1])
  {
  }

  predicate CountsHold(vs: seq<Option<Value>>, t: Tally) {
    && t.nullCount + t.notNullCount == |vs|
    && |t.unique| <= t.notNullCount
    && (t.nullCount == 0 <==> forall i :: 0 <= i < |vs| ==> vs[i].Some?)
  }

  lemma CountsStep(p: seq<Option<Value>>, t: Tally, v: Option<Value>)
    requires CountsHold(p, t)
    ensures CountsHold(p + [v], TallyStep(t, v))
  {
    var vs := p + [v];
    assert forall i :: 0 <= i < |p| ==> vs[i] == p[i];
    assert vs[|p|] == v;
  }

  /** Each value is counted once, as null or as not null; there are no more distinct forms than non-null values. */
  lemma {:induction false} TallyCounts(vs: seq<Option<Value>>)
    ensures CountsHold(vs, TallyOf(vs))
  {
    if |vs| > 0 {
      SplitLast(vs);
      TallyCounts(vs[..|vs| - 1]);
      CountsStep(vs[..|vs| - 1], TallyOf(vs[..|vs| - 1]), vs[|vs| - 1]);
    }
  }

  ghost predicate IsFormOf(vs: seq<Option<Value>>, s: string) {
    exists i :: 0 <= i < |vs| && vs[i].Some? && PyStr(vs[i].value) == s
  }

  ghost predicate UniqueHolds(vs: seq<Option<Value>>, u: seq<string>) {
    && (forall a, b :: 0 <= a < b < |u| ==> u[a] != u[b])
    && (forall s :: s in u <==> IsFormOf(vs, s))
  }

  lemma UniqueStep(p: seq<Option<Value>>, u: seq<string>, v: Option<Value>)
    requires UniqueHolds(p, u)
    ensures UniqueHolds(p + [v], if v.Some? then AddUnique(u, PyStr(v.value)) else u)
  {
    var vs := p + [v];
    var u' := if v.Some? then AddUnique(u, PyStr(v.value)) else u;
    assert forall i :: 0 <= i < |p| ==> vs[i] == p[i];
    forall s ensures s in u' <==> IsFormOf(vs, s) {
      if IsFormOf(vs, s) {
        var i :| 0 <= i < |vs| && vs[i].Some? && PyStr(vs[i].value) == s;
        if i < |p| { assert IsFormOf(p, s); }
      }
      if s in u' && !(v.Some? && s == PyStr(v.value)) {
        assert IsFormOf(p, s);
        var i :| 0 <= i < |p| && p[i].Some? && PyStr(p[i].value) == s;
        assert vs[i] == p[i];
      }
      if v.Some? && s == PyStr(v.value) {
        assert vs[|p|] == v;
      }
    }
  }

  /** One step touches the distinct forms only through AddUnique, and only for a non-null value. */
  lemma TallyStepUnique(t: Tally, v: Option<Value>)
    ensures TallyStep(t, v).unique == if v.Some? then AddUnique(t.unique, PyStr(v.value)) else t.unique
  {
  }

  /** The distinct forms are exactly the str() forms of the non-null values, each listed once. */
  lemma {:induction false} TallyUnique(vs: seq<Option<Value>>)
    ensures UniqueHolds(vs, TallyOf(vs).unique)
  {
    if |vs| > 0 {
      SplitLast(vs);
      TallyUnique(vs[..|vs| - 1]);
      TallyStepUnique(TallyOf(vs[..|vs| - 1]), vs[|vs| - 1]);
      UniqueStep(vs[..|vs| - 1], TallyOf(vs[..|vs| - 1]).unique, vs[|vs| - 1]);
    }
  }

  predicate HasNumeric(vs: seq<Option<Value>>) {
    exists i :: 0 <= i < |vs| && IsNumericAt(vs, i)
  }

  /** m is the least numeric value of vs (the first one reached, on ties). */
  predicate IsMinOf(vs: seq<Option<Value>>, m: Value) {
    && IsNumeric(m)
    && (exists i :: 0 <= i < |vs| && vs[i] == Some(m))
    && (forall i :: 0 <= i < |vs| && IsNumericAt(vs, i) ==> NumericValue(m) <= NumericValue(vs[i].value))
  }

  predicate IsMaxOf(vs: seq<Option<Value>>, m: Value) {
    && IsNumeric(m)
    && (exists i :: 0 <= i < |vs| && vs[i] == Some(m))
    && (forall i :: 0 <= i < |vs| && IsNumericAt(vs, i) ==> NumericValue(vs[i].value) <= NumericValue(m))
  }

  predicate RangeHolds(vs: seq<Option<Value>>, t: Tally) {
    && (t.minValue.Some? <==> HasNumeric(vs))
    && (t.maxValue.Some? <==> HasNumeric(vs))
    && (t.isNumeric <==> HasNumeric(vs))
    && (t.minValue.Some? ==> IsMinOf(vs, t.minValue.value))
    && (t.maxValue.Some? ==> IsMaxOf(vs, t.maxValue.value))
  }

  lemma MinStep(p: seq<Option<Value>>, m: Option<Value>, x: Value)
    requires IsNumeric(x)
    requires m.Some? <==> HasNumeric(p)
    requires m.Some? ==> IsMinOf(p, m.value)
    ensures IsMinOf(p + [Some(x)],
      if m.None? || !IsNumeric(m.value) || NumericValue(x) < NumericValue(m.value) then x else m.value)
  {
    var vs := p + [Some(x)];
    var r := if m.None? || !IsNumeric(m.value) || NumericValue(x) < NumericValue(m.value) then x else m.value;
    assert vs[|p|] == Some(x);
    forall i | 0 <= i < |vs| && IsNumericAt(vs, i) ensures NumericValue(r) <= NumericValue(vs[i].value) {
      if i < |p| {
        assert vs[i] == p[i];
        assert IsNumericAt(p, i);
        assert NumericValue(m.value) <= NumericValue(p[i].value);
      }
    }
    if r == x {
      assert vs[|p|] == Some(r);
    } else {
      var k :| 0 <= k < |p| && p[k] == m;
      assert vs[k] == Some(r);
    }
  }

  lemma MaxStep(p: seq<Option<Value>>, m: Option<Value>, x: Value)
    requires IsNumeric(x)
    requires m.Some? <==> HasNumeric(p)
    requires m.Some? ==> IsMaxOf(p, m.value)
    ensures IsMaxOf(p + [Some(x)],
      if m.None? || !IsNumeric(m.value) || NumericValue(x) > NumericValue(m.value) then x else m.value)
  {
    var vs := p + [Some(x)];
    var r := if m.None? || !IsNumeric(m.value) || NumericValue(x) > NumericValue(m.value) then x else m.value;
    assert vs[|p|] == Some(x);
    forall i | 0 <= i < |vs| && IsNumericAt(vs, i) ensures NumericValue(vs[i].value) <= NumericValue(r) {
      if i < |p| {
        assert vs[i] == p[i];
        assert IsNumericAt(p, i);
        assert NumericValue(p[i].value) <= NumericValue(m.value);
      }
    }
    if r == x {
      assert vs[|p|] == Some(r);
    } else {
      var k :| 0 <= k < |p| && p[k] == m;
      assert vs[k] == Some(r);
    }
  }

  lemma ExtendNonNumeric(p: seq<Option<Value>>, v: Option<Value>, mn: Option<Value>, mx: Option<Value>)
    requires !(v.Some? && IsNumeric(v.value))
    requires mn.Some? ==> IsMinOf(p, mn.value)
    requires mx.Some? ==> IsMaxOf(p, mx.value)
    ensures HasNumeric(p + [v]) == HasNumeric(p)
    ensures mn.Some? ==> IsMinOf(p + [v], mn.value)
    ensures mx.Some? ==> IsMaxOf(p + [v], mx.value)
  {
    var vs := p + [v];
    assert forall i :: 0 <= i < |p| ==> vs[i] == p[i];
    assert vs[|p|] == v;
    if HasNumeric(vs) {
      var i :| 0 <= i < |vs| && IsNumericAt(vs, i);
      assert i < |p| && IsNumericAt(p, i);
    }
    if HasNumeric(p) {
      var i :| 0 <= i < |p| && IsNumericAt(p, i);
      assert IsNumericAt(vs, i);
    }
    if mn.Some? {
      var k :| 0 <= k < |p| && p[k] == mn;
      assert vs[k] == mn;
      forall i | 0 <= i < |vs| && IsNumericAt(vs, i) ensures NumericValue(mn.value) <= NumericValue(vs[i].value) {
        assert i < |p| && IsNumericAt(p, i);
      }
    }
    if mx.Some? {
      var k :| 0 <= k < |p| && p[k] == mx;
      assert vs[k] == mx;
      forall i | 0 <= i < |vs| && IsNumericAt(vs, i) ensures NumericValue(vs[i].value) <= NumericValue(mx.value) {
        assert i < |p| && IsNumericAt(p, i);
      }
    }
  }

  lemma RangeStep(p: seq<Option<Value>>, t: Tally, v: Option<Value>)
    requires RangeHolds(p, t)
    ensures RangeHolds(p + [v], TallyStep(t, v))
  {
    var t' := TallyStep(t, v);
    if v.Some? && IsNumeric(v.value) {
      var x := v.value;
      assert t'.isNumeric;
      assert t'.minValue == Some(if t.minValue.None? || !IsNumeric(t.minValue.value)
                           || NumericValue(x) < NumericValue(t.minValue.value) then x else t.minValue.value);
      assert t'.maxValue == Some(if t.maxValue.None? || !IsNumeric(t.maxValue.value)
                           || NumericValue(x) > NumericValue(t.maxValue.value) then x else t.maxValue.value);
      MinStep(p, t.minValue, x);
      MaxStep(p, t.maxValue, x);
      assert HasNumeric(p + [v]) by { assert IsNumericAt(p + [v], |p|); }
    } else {
      assert t'.minValue == t.minValue && t'.maxValue == t.maxValue && t'.isNumeric == t.isNumeric;
      ExtendNonNumeric(p, v, t.minValue, t.maxValue);
    }
  }

  /** min_value and max_value are the numeric extremes, present exactly when a numeric value occurs. */
  lemma {:induction false} TallyRange(vs: seq<Option<Value>>)
    ensures RangeHolds(vs, TallyOf(vs))
  {
    if |vs| > 0 {
      SplitLast(vs);
      TallyRange(vs[..|vs| - 1]);
      RangeStep(vs[..|vs| - 1], TallyOf(vs[..|vs| - 1]), vs[|vs| - 1]);
    }
  }

  /** min_value <= max_value once a numeric value has been seen. */
  lemma TallyMinAtMostMax(vs: seq<Option<Value>>)
    requires TallyOf(vs).minValue.Some?
    ensures TallyOf(vs).maxValue.Some? && IsNumeric(TallyOf(vs).minValue.value) && IsNumeric(TallyOf(vs).maxValue.value)
    ensures NumericValue(TallyOf(vs).minValue.value) <= NumericValue(TallyOf(vs).maxValue.value)
  {
    TallyRange(vs);
    var t := TallyOf(vs);
    var k :| 0 <= k < |vs| && vs[k] == t.minValue;
    assert IsNumericAt(vs, k);
  }

  predicate HasString(vs: seq<Option<Value>>) {
    exists i :: 0 <= i < |vs| && IsStringAt(vs, i)
  }

  predicate LengthsHold(vs: seq<Option<Value>>, t: Tally) {
    && (t.minLength.Some? <==> HasString(vs))
    && (t.isString <==> HasString(vs))
    && (forall i :: 0 <= i < |vs| && IsStringAt(vs, i) ==> |vs[i].value.s| <= t.maxLength)
    && (forall i :: 0 <= i < |vs| && vs[i].Some? && !IsNumeric(vs[i].value) ==> |PyStr(vs[i].value)| <= t.maxLength)
    && (t.minLength.Some? ==> forall i :: 0 <= i < |vs| && IsStringAt(vs, i) ==> t.minLength.value <= |vs[i].value.s|)
    && (t.minLength.Some? ==> exists i :: 0 <= i < |vs| && IsStringAt(vs, i) && |vs[i].value.s| == t.minLength.value)
  }

  /** A string occurs after one more value exactly when it occurred before or the value is one. */
  lemma HasStringStep(p: seq<Option<Value>>, v: Option<Value>)
    ensures HasString(p + [v]) <==> HasString(p) || (v.Some? && v.value.VStr?)
  {
    var vs := p + [v];
    if HasString(p) {
      var i :| 0 <= i < |p| && IsStringAt(p, i);
      assert vs[i] == p[i] && IsStringAt(vs, i);
    }
    if v.Some? && v.value.VStr? {
      assert vs[|p|] == v && IsStringAt(vs, |p|);
    }
    if HasString(vs) {
      var i :| 0 <= i < |vs| && IsStringAt(vs, i);
      if i < |p| {
        assert vs[i] == p[i] && IsStringAt(p, i);
      }
    }
  }

  /** A string value: max_length and min_length take in its length. */
  lemma LengthsStepString(p: seq<Option<Value>>, t: Tally, x: Value)
    requires x.VStr? && LengthsHold(p, t)
    ensures LengthsHold(p + [Some(x)], TallyStep(t, Some(x)))
  {
    var vs := p + [Some(x)];
    var t' := TallyStep(t, Some(x));
    HasStringStep(p, Some(x));
    assert forall i :: 0 <= i < |p| ==> vs[i] == p[i];
    assert vs[|p|] == Some(x) && IsStringAt(vs, |p|);
    assert t'.maxLength >= t.maxLength && t'.maxLength >= |x.s|;
    assert t'.minLength.Some? && t'.minLength.value <= |x.s|;
    assert t.minLength.Some? ==> t'.minLength.value <= t.minLength.value;
    forall i | 0 <= i < |vs| && IsStringAt(vs, i) ensures t'.minLength.value <= |vs[i].value.s| {
      if i < |p| {
        assert IsStringAt(p, i);
        assert HasString(p);
      }
    }
    if t'.minLength == Some(|x.s|) {
      assert IsStringAt(vs, |p|) && |vs[|p|].value.s| == t'.minLength.value;
    } else {
      var k :| 0 <= k < |p| && IsStringAt(p, k) && |p[k].value.s| == t.minLength.value;
      assert IsStringAt(vs, k) && |vs[k].value.s| == t'.minLength.value;
    }
  }

  /** Any other value: the string lengths stay, and a non-numeric rendering may raise max_length. */
  lemma LengthsStepOther(p: seq<Option<Value>>, t: Tally, v: Option<Value>)
    requires !(v.Some? && v.value.VStr?) && LengthsHold(p, t)
    ensures LengthsHold(p + [v], TallyStep(t, v))
  {
    var vs := p + [v];
    var t' := TallyStep(t, v);
    HasStringStep(p, v);
    assert forall i :: 0 <= i < |p| ==> vs[i] == p[i];
    assert vs[|p|] == v;
    assert t'.minLength == t.minLength && t'.isString == t.isString && t'.maxLength >= t.maxLength;
    assert v.Some? && !IsNumeric(v.value) ==> |PyStr(v.value)| <= t'.maxLength;
    if t.minLength.Some? {
      var k :| 0 <= k < |p| && IsStringAt(p, k) && |p[k].value.s| == t.minLength.value;
      assert IsStringAt(vs, k) && |vs[k].value.s| == t.minLength.value;
    }
  }

  lemma LengthsStep(p: seq<Option<Value>>, t: Tally, v: Option<Value>)
    requires LengthsHold(p, t)
    ensures LengthsHold(p + [v], TallyStep(t, v))
  {
    if v.Some? && v.value.VStr? {
      LengthsStepString(p, t, v.value);
    } else {
      LengthsStepOther(p, t, v);
    }
  }

  /** max_length bounds every string and every other non-numeric rendering; min_length is the shortest string. */
  lemma {:induction false} TallyLengths(vs: seq<Option<Value>>)
    ensures LengthsHold(vs, TallyOf(vs))
  {
    if |vs| > 0 {
      SplitLast(vs);
      TallyLengths(vs[..|vs| - 1]);
      LengthsStep(vs[..|vs| - 1], TallyOf(vs[..|vs| - 1]), vs[|vs| - 1]);
    }
  }

  /** min_length <= max_length once a string has been seen. */
  lemma TallyMinLengthAtMostMax(vs: seq<Option<Value>>)
    requires TallyOf(vs).minLength.Some?
    ensures TallyOf(vs).minLength.value <= TallyOf(vs).maxLength
  {
    TallyLengths(vs);
    var t := TallyOf(vs);
    var k :| 0 <= k < |vs| && IsStringAt(vs, k) && |vs[k].value.s| == t.minLength.value;
  }

  // ---------------------------------------------------------------------------
  // The profile

  datatype Constraint = NotNull | Unique | CheckAtLeast(bound: Value)
  {
    function ToSql(): string {
      match this
      case NotNull => "NOT NULL"
      case Unique => "UNIQUE"
      case CheckAtLeast(b) => "CHECK (>= " + PyStr(b) + ")"
    }
  }

  /** Why a profile carries an "error" entry. */
  datatype ProfileError = LayerUnreadable | AllSamplesEmpty

  datatype Profile = Profile(
    fieldName: string,
    fionaType: string,
    totalRecords: nat,
    tally: Tally,
    nullPercentage: real,
    sampleValues: seq<string>,
    uniqueCount: nat,
    uniquePercentage: real,
    recommendedType: Option<SqlType>,
    constraints: seq<Constraint>,
    error: Option<ProfileError>)

  /** At most this many sample values are kept. */
  const MaxSamples: nat := 20

  function Percentage(part: nat, total: nat): real {
    if total > 0 then (part as real / total as real) * 100.0 else 0.0
  }

  /** The recommended constraints, in the order they are appended. */
  function Constraints(t: Tally, nullPercentage: real, uniquePercentage: real): seq<Constraint>
  {
    (if nullPercentage == 0.0 then [NotNull] else [])
    + (if uniquePercentage == 100.0 && t.notNullCount > 0 then [Unique] else [])
    + (if t.isNumeric && t.minValue.Some? && t.maxValue.Some? && IsNumeric(t.minValue.value)
          && NumericValue(t.minValue.value) >= 0.0
       then [CheckAtLeast(t.minValue.value)] else [])
  }

  /** Every element of a prefix of a sequence is an element of the sequence. */
  lemma PrefixElements(xs: seq<string>, k: nat)
    requires k <= |xs|
    ensures forall s :: s in xs[..k] ==> s in xs
  {
    forall s | s in xs[..k] ensures s in xs {
      var j :| 0 <= j < k && xs[..k][j] == s;
      assert xs[j] == s;
    }
  }

  /** The sample values: the first 20 distinct forms in sorted order. */
  function SampleValues(unique: seq<string>): (r: seq<string>)
    ensures |r| == if |unique| <= MaxSamples then |unique| else MaxSamples
    ensures forall a, b :: 0 <= a < b < |r| ==> LexLe(r[a], r[b])
    ensures forall s :: s in r ==> s in unique
  {
    var sorted := SortStrings(unique);
    SortStringsSorted(unique);
    assert forall s :: s in sorted ==> s in unique by {
      forall s | s in sorted ensures s in unique {
        assert s in multiset(sorted);
      }
    }
    if |sorted| <= MaxSamples then sorted
    else
      PrefixElements(sorted, MaxSamples);
      sorted[..MaxSamples]
  }

  /** The statistics computed after the pass; the type inference raising leaves type and constraints unset. */
  function Finish(fieldName: string, fionaType: string, totalRecords: nat, t: Tally): Profile
  {
    var nullPct := Percentage(t.nullCount, totalRecords);
    var samples := SampleValues(t.unique);
    var uniquePct := Percentage(|t.unique|, totalRecords);
    var ty := ParseSchemaPgType(fionaType, fieldName, samples);
    Profile(fieldName, fionaType, totalRecords, t, nullPct, samples, |t.unique|, uniquePct,
            ty, if ty.Some? then Constraints(t, nullPct, uniquePct) else [],
            if ty.None? then Some(AllSamplesEmpty) else None)
  }

  /** The profile of a field whose layer yields `values` (None: the layer cannot be opened). */
  function ProfileOf(fieldName: string, fionaType: string, totalRecords: nat,
                     values: Option<seq<Option<Value>>>): Profile
  {
    match values
    case None =>
      Profile(fieldName, fionaType, totalRecords, EmptyTally, 0.0, [], 0, 0.0, None, [], Some(LayerUnreadable))
    case Some(vs) => Finish(fieldName, fionaType, totalRecords, TallyOf(vs))
  }

  /** The body of the pass for a numeric value: the type flags and the running extremes. */
  method ReadNumeric(t1: Tally, x: Value) returns (r: Tally)
    requires IsNumeric(x)
    ensures r == t1.(isNumeric := true,
                     isInteger := t1.isInteger || !x.VFloat?,
                     isFloat := t1.isFloat || x.VFloat?,
                     minValue := if t1.minValue.None? || !IsNumeric(t1.minValue.value)
                                    || NumericValue(x) < NumericValue(t1.minValue.value) then Some(x) else t1.minValue,
                     maxValue := if t1.maxValue.None? || !IsNumeric(t1.maxValue.value)
                                    || NumericValue(x) > NumericValue(t1.maxValue.value) then Some(x) else t1.maxValue)
  {
    var isInteger, isFloat := t1.isInteger, t1.isFloat;
    if x.VFloat? { isFloat := true; } else { isInteger := true; }
    var minValue, maxValue := t1.minValue, t1.maxValue;
    if minValue.None? || !IsNumeric(minValue.value) || NumericValue(x) < NumericValue(minValue.value) {
      minValue := Some(x);
    }
    if maxValue.None? || !IsNumeric(maxValue.value) || NumericValue(x) > NumericValue(maxValue.value) {
      maxValue := Some(x);
    }
    r := t1.(isNumeric := true, isInteger := isInteger, isFloat := isFloat, minValue := minValue, maxValue := maxValue);
  }

  /** The body of the pass for one value. */
  method ReadValue(t: Tally, v: Option<Value>) returns (r: Tally)
    ensures r == TallyStep(t, v)
  {
    match v {
    case None =>
      r := t.(nullCount := t.nullCount + 1);
    case Some(x) =>
      var t1 := t.(notNullCount := t.notNullCount + 1, unique := AddUnique(t.unique, PyStr(x)));
      if IsNumeric(x) {
        r := ReadNumeric(t1, x);
      } else if x.VStr? {
        var n := |x.s|;
        var maxLength, minLength := t1.maxLength, t1.minLength;
        if n > maxLength { maxLength := n; }
        if minLength.None? || n < minLength.value { minLength := Some(n); }
        r := t1.(isString := true, maxLength := maxLength, minLength := minLength);
      } else {
        var n := |PyStr(x)|;
        var maxLength := t1.maxLength;
        if n > maxLength { maxLength := n; }
        r := t1.(maxLength := maxLength);
      }
    }
  }

  /** analyze_field_completely: the pass over the values, then the derived statistics. */
  method AnalyzeFieldCompletely(fieldName: string, fionaType: string, totalRecords: nat,
                                values: Option<seq<Option<Value>>>) returns (p: Profile)
    ensures p == ProfileOf(fieldName, fionaType, totalRecords, values)
  {
    if values.None? {
      return Profile(fieldName, fionaType, totalRecords, EmptyTally, 0.0, [], 0, 0.0, None, [], Some(LayerUnreadable));
    }
    var vs := values.value;
    var t := EmptyTally;
    var i := 0;
    while i < |vs|
      invariant 0 <= i <= |vs|
      invariant t == TallyOf(vs[..i])
    {
      TallyOfNext(vs, i);
      t := ReadValue(t, vs[i]);
      i := i + 1;
    }
    assert vs[..|vs|] == vs;
    p := Finish(fieldName, fionaType, totalRecords, t);
  }

  // ---------------------------------------------------------------------------
  // Properties of the profile

  /** At most 20 samples, in sorted order, each a str() form of a non-null value. */
  lemma SampleValuesFacts(fieldName: string, fionaType: string, vs: seq<Option<Value>>)
    ensures var p := ProfileOf(fieldName, fionaType, |vs|, Some(vs));
      && |p.sampleValues| <= MaxSamples
      && (forall a, b :: 0 <= a < b < |p.sampleValues| ==> LexLe(p.sampleValues[a], p.sampleValues[b]))
      && (forall s :: s in p.sampleValues ==> exists i :: 0 <= i < |vs| && vs[i].Some? && PyStr(vs[i].value) == s)
      && p.uniqueCount == |TallyOf(vs).unique|
  {
    var t := TallyOf(vs);
    TallyUnique(vs);
    var samples := SampleValues(t.unique);
    assert ProfileOf(fieldName, fionaType, |vs|, Some(vs)).sampleValues == samples;
    forall s | s in samples ensures IsFormOf(vs, s) {
      assert s in t.unique;
    }
  }

  lemma PercentageZero(part: nat, total: nat)
    ensures Percentage(part, total) == 0.0 <==> total == 0 || part == 0
  {
  }

  lemma PercentageFull(part: nat, total: nat)
    ensures Percentage(part, total) == 100.0 <==> total > 0 && part == total
  {
    if total > 0 && Percentage(part, total) == 100.0 {
      assert part as real / total as real == 1.0;
    }
  }

  lemma NotNullIn(t: Tally, n: real, u: real)
    ensures NotNull in Constraints(t, n, u) <==> n == 0.0
  {
  }

  lemma UniqueIn(t: Tally, n: real, u: real)
    ensures Unique in Constraints(t, n, u) <==> u == 100.0 && t.notNullCount > 0
  {
  }

  lemma CheckIn(t: Tally, n: real, u: real)
    ensures (exists c :: c in Constraints(t, n, u) && c.CheckAtLeast?) <==>
      t.isNumeric && t.minValue.Some? && t.maxValue.Some? && IsNumeric(t.minValue.value)
        && NumericValue(t.minValue.value) >= 0.0
    ensures forall c :: c in Constraints(t, n, u) && c.CheckAtLeast? ==> Some(c.bound) == t.minValue
  {
    var cs := Constraints(t, n, u);
    if t.isNumeric && t.minValue.Some? && t.maxValue.Some? && IsNumeric(t.minValue.value)
        && NumericValue(t.minValue.value) >= 0.0 {
      assert CheckAtLeast(t.minValue.value) in cs;
    }
  }

  /** The parts of a readable field's profile that its rules consult. */
  lemma ProfileParts(fieldName: string, fionaType: string, vs: seq<Option<Value>>)
    ensures var p := ProfileOf(fieldName, fionaType, |vs|, Some(vs));
      var t := TallyOf(vs);
      && p.nullPercentage == Percentage(t.nullCount, |vs|)
      && p.uniquePercentage == Percentage(|t.unique|, |vs|)
      && (p.error.None? ==> p.constraints == Constraints(t, p.nullPercentage, p.uniquePercentage))
  {
  }

  /** NOT NULL is recommended exactly when the field has no null, an empty layer included. */
  lemma NotNullRule(fieldName: string, fionaType: string, vs: seq<Option<Value>>)
    requires ProfileOf(fieldName, fionaType, |vs|, Some(vs)).error.None?
    ensures NotNull in ProfileOf(fieldName, fionaType, |vs|, Some(vs)).constraints <==>
      forall i :: 0 <= i < |vs| ==> vs[i].Some?
  {
    TallyCounts(vs);
    var t := TallyOf(vs);
    var p := ProfileOf(fieldName, fionaType, |vs|, Some(vs));
    ProfileParts(fieldName, fionaType, vs);
    PercentageZero(t.nullCount, |vs|);
    NotNullIn(t, p.nullPercentage, p.uniquePercentage);
  }

  /** UNIQUE is recommended exactly when the distinct forms number the records, and then no value is null. */
  lemma UniqueRule(fieldName: string, fionaType: string, vs: seq<Option<Value>>)
    requires ProfileOf(fieldName, fionaType, |vs|, Some(vs)).error.None?
    ensures Unique in ProfileOf(fieldName, fionaType, |vs|, Some(vs)).constraints <==>
      |vs| > 0 && |TallyOf(vs).unique| == |vs|
    ensures Unique in ProfileOf(fieldName, fionaType, |vs|, Some(vs)).constraints ==>
      forall i :: 0 <= i < |vs| ==> vs[i].Some?
  {
    TallyCounts(vs);
    var t := TallyOf(vs);
    var p := ProfileOf(fieldName, fionaType, |vs|, Some(vs));
    ProfileParts(fieldName, fionaType, vs);
    PercentageFull(|t.unique|, |vs|);
    UniqueIn(t, p.nullPercentage, p.uniquePercentage);
  }

  /** A CHECK (>= min) is recommended exactly when numeric values occur and none is negative; its bound is one of them. */
  lemma CheckRule(fieldName: string, fionaType: string, vs: seq<Option<Value>>)
    requires ProfileOf(fieldName, fionaType, |vs|, Some(vs)).error.None?
    ensures var cs := ProfileOf(fieldName, fionaType, |vs|, Some(vs)).constraints;
      (exists c :: c in cs && c.CheckAtLeast?) <==>
        (exists i :: 0 <= i < |vs| && IsNumericAt(vs, i)) &&
        (forall i :: 0 <= i < |vs| && IsNumericAt(vs, i) ==> NumericValue(vs[i].value) >= 0.0)
    ensures var cs := ProfileOf(fieldName, fionaType, |vs|, Some(vs)).constraints;
      forall c :: c in cs && c.CheckAtLeast? ==> IsNumeric(c.bound) && exists i :: 0 <= i < |vs| && vs[i] == Some(c.bound)
  {
    TallyRange(vs);
    var t := TallyOf(vs);
    var p := ProfileOf(fieldName, fionaType, |vs|, Some(vs));
    ProfileParts(fieldName, fionaType, vs);
    CheckIn(t, p.nullPercentage, p.uniquePercentage);
    if t.minValue.Some? {
      var k :| 0 <= k < |vs| && vs[k] == t.minValue;
      assert IsNumericAt(vs, k);
    }
  }

  /**
   * The type inference raising (every sample empty) is reported as an error entry, never
   * propagated, and no constraint is recommended: the raise comes before any is appended.
   */
  lemma AllEmptySamplesIsError(fieldName: string, fionaType: string, vs: seq<Option<Value>>)
    requires !IsIdName(fieldName) && TableType(BaseType(fionaType)) == Text && DeclaredWidth(fionaType).None?
    requires exists i :: 0 <= i < |vs| && vs[i].Some?
    requires forall i :: 0 <= i < |vs| && vs[i].Some? ==> PyStr(vs[i].value) == ""
    ensures ProfileOf(fieldName, fionaType, |vs|, Some(vs)).error == Some(AllSamplesEmpty)
    ensures ProfileOf(fieldName, fionaType, |vs|, Some(vs)).recommendedType.None?
    ensures ProfileOf(fieldName, fionaType, |vs|, Some(vs)).constraints == []
  {
    var t := TallyOf(vs);
    TallyUnique(vs);
    var i :| 0 <= i < |vs| && vs[i].Some?;
    assert IsFormOf(vs, "");
    assert "" in t.unique;
    var samples := SampleValues(t.unique);
    assert |samples| > 0;
    forall j | 0 <= j < |samples| ensures samples[j] == "" {
      assert samples[j] in t.unique;
      assert IsFormOf(vs, samples[j]);
    }
    assert LongestSample(samples).None?;
  }
}
