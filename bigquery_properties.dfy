/** What the BigQuery type mapping guarantees: which portable types survive a
    trip through a BigQuery table, what the lossy ones come back as, how
    nested arrays are wrapped and rendered, and when the result is JSON-safe. */
module BigQueryProperties {
  import opened Wrappers
  import P = Schema
  import opened BigQueryDataType
  import opened BigQueryDisplay
  import opened BigQueryJsonSafe

  // ---------------------------------------------------------------------
  // Round trips through a final table

  /** The portable types BigQuery stores without loss, as scalars. */
  predicate LosslessScalar(t: P.DataType)
  {
    || t == P.Bool
    || t == P.Date
    || t == P.Decimal
    || t == P.Float64
    || t == P.Int64
    || t == P.Text
    || t == P.TimestampWithoutTimeZone
    || t == P.TimestampWithTimeZone
    || t == P.GeoJson(P.Wgs84)
  }

  /** The portable types BigQuery stores without loss: the lossless scalars
      and one-level arrays of them. */
  predicate Lossless(t: P.DataType)
  {
    LosslessScalar(t) || (t.Array? && LosslessScalar(t.elem))
  }

  /** The portable type a final-table column of type `t` reads back as: the
      narrower integers and floats widen, JSON, UUIDs, unknown types and
      non-WGS 84 geometry become text, and an array of arrays becomes JSON. */
  function StoredAs(t: P.DataType): P.DataType
  {
    match t
    case Array(Array(_)) => P.Json
    case Array(e) => P.Array(StoredAs(e))
    case Int16 => P.Int64
    case Int32 => P.Int64
    case Float32 => P.Float64
    case Json => P.Text
    case Uuid => P.Text
    case Other(_) => P.Text
    case GeoJson(srid) => if srid == P.Wgs84 then t else P.Text
    case _ => t
  }

  /** Every portable type except an array of JSON maps to a final-table type,
      and reading that type back gives `StoredAs(t)`. */
  lemma FinalTableRoundTrip(t: P.DataType)
    requires t != P.Array(P.Json)
    ensures ForDataType(t, FinalTable).Success?
    ensures ToDataType(ForDataType(t, FinalTable).value) == Success(StoredAs(t))
  {
    if t.Array? && t.elem.Array? {
      assert IsArrayWrapper(NonArrayForDataType(t.elem, FinalTable).value);
    }
  }

  /** A portable type comes back unchanged from a final table exactly when it
      is one BigQuery stores without loss. */
  lemma RoundTripExactlyWhenLossless(t: P.DataType)
    requires t != P.Array(P.Json)
    ensures ForDataType(t, FinalTable).Success?
    ensures ToDataType(ForDataType(t, FinalTable).value) == Success(t) <==> Lossless(t)
  {
    FinalTableRoundTrip(t);
    if t.Array? && !t.elem.Array? {
      assert StoredAs(t) == P.Array(StoredAs(t.elem));
    }
  }

  /** What a final-table column made for `t` reads back as, or why there is
      no such column or no portable type for it. */
  function ReadBack(t: P.DataType): Result<P.DataType, Error>
  {
    match ForDataType(t, FinalTable)
    case Failure(e) => Failure(e)
    case Success(b) => ToDataType(b)
  }

  /** The narrower numbers widen on the trip to a final table and back. */
  lemma WideningMappings()
    ensures ReadBack(P.Int16) == Success(P.Int64) && ReadBack(P.Int32) == Success(P.Int64)
    ensures ReadBack(P.Float32) == Success(P.Float64)
  {
    ReadBackIsStoredAs(P.Int16);
    ReadBackIsStoredAs(P.Int32);
    ReadBackIsStoredAs(P.Float32);
  }

  /** JSON, UUIDs, unknown types and non-WGS 84 geometry come back as text. */
  lemma TextMappings(name: string, srid: P.Srid)
    requires srid != P.Wgs84
    ensures ReadBack(P.Json) == Success(P.Text) && ReadBack(P.Uuid) == Success(P.Text)
    ensures ReadBack(P.Other(name)) == Success(P.Text)
    ensures ReadBack(P.GeoJson(srid)) == Success(P.Text)
  {
    ReadBackIsStoredAs(P.Json);
    ReadBackIsStoredAs(P.Uuid);
    ReadBackIsStoredAs(P.Other(name));
    ReadBackIsStoredAs(P.GeoJson(srid));
  }

  /** An array of arrays comes back as one JSON value. */
  lemma NestedArrayMapping(x: P.DataType)
    ensures ReadBack(P.Array(P.Array(x))) == Success(P.Json)
  {
    ReadBackIsStoredAs(P.Array(P.Array(x)));
  }

  lemma ReadBackIsStoredAs(t: P.DataType)
    requires t != P.Array(P.Json)
    ensures ReadBack(t) == Success(StoredAs(t))
  {
    FinalTableRoundTrip(t);
  }

  /** Every portable type read from BigQuery can be mapped back to a
      final-table type, and a type without structs maps back to itself. */
  lemma BigQueryRoundTrip(b: BqDataType)
    requires ToDataType(b).Success?
    ensures ForDataType(ToDataType(b).value, FinalTable).Success?
    ensures !b.elem.Struct? ==> ForDataType(ToDataType(b).value, FinalTable) == Success(b)
  {
  }

  // ---------------------------------------------------------------------
  // Scalars

  /** The BigQuery type each portable scalar is stored as, by name. */
  function BqScalarName(t: P.DataType): string
    requires !t.Array?
  {
    match t
    case Bool => "BOOL"
    case Date => "DATE"
    case Decimal => "NUMERIC"
    case Float32 => "FLOAT64"
    case Float64 => "FLOAT64"
    case GeoJson(srid) => if srid == P.Wgs84 then "GEOGRAPHY" else "STRING"
    case Int16 => "INT64"
    case Int32 => "INT64"
    case Int64 => "INT64"
    case Json => "STRING"
    case Other(_) => "STRING"
    case Text => "STRING"
    case TimestampWithoutTimeZone => "DATETIME"
    case TimestampWithTimeZone => "TIMESTAMP"
    case Uuid => "STRING"
  }

  /** Every portable scalar, for either usage, becomes the non-array BigQuery
      type named in the table. */
  lemma ScalarMapping(t: P.DataType, usage: Usage)
    requires !t.Array?
    ensures ForDataType(t, usage).Success?
    ensures ForDataType(t, usage).value.NonArray?
    ensures Render(ForDataType(t, usage).value) == BqScalarName(t)
  {
  }

  /** A scalar maps to the same BigQuery type whatever the usage: only
      arrays are treated differently for CSV loading. */
  lemma ScalarMappingIgnoresUsage(t: P.DataType)
    requires !t.Array?
    ensures ForDataType(t, CsvLoad) == ForDataType(t, FinalTable)
  {
  }

  // ---------------------------------------------------------------------
  // The shape of final-table types

  /** Every struct inside `b` is a wrapper around a nested array. */
  predicate OnlyArrayWrappers(b: BqDataType)
    decreases b
  {
    NonArrayOnlyArrayWrappers(b.elem)
  }

  predicate NonArrayOnlyArrayWrappers(n: BqNonArrayDataType)
    decreases n
  {
    n.Struct? ==> IsArrayWrapper(n) && FieldOnlyArrayWrappers(n.fields[0])
  }

  predicate FieldOnlyArrayWrappers(f: BqStructField)
    decreases f
  {
    OnlyArrayWrappers(f.ty)
  }

  /** The number of arrays in `b`, counting those wrapped in structs. */
  function BqArrayDepth(b: BqDataType): nat
    decreases b
  {
    (if b.Array? then 1 else 0) + WrappedArrayDepth(b.elem)
  }

  function WrappedArrayDepth(n: BqNonArrayDataType): nat
    decreases n
  {
    if IsArrayWrapper(n) then FieldArrayDepth(n.fields[0]) else 0
  }

  function FieldArrayDepth(f: BqStructField): nat
    decreases f
  {
    BqArrayDepth(f.ty)
  }

  /** A nested portable type maps to wrappers only, one per nested array. */
  lemma {:induction false} NonArrayForDataTypeShape(t: P.DataType)
    ensures NonArrayForDataType(t, FinalTable).Success?
    ensures NonArrayOnlyArrayWrappers(NonArrayForDataType(t, FinalTable).value)
    ensures WrappedArrayDepth(NonArrayForDataType(t, FinalTable).value) == P.ArrayDepth(t)
  {
    if t.Array? {
      NonArrayForDataTypeShape(t.elem);
    }
  }

  /** In a final table no struct appears except to wrap a nested array, and
      the number of arrays is that of the portable type. */
  lemma ForDataTypeShape(t: P.DataType)
    requires ForDataType(t, FinalTable).Success?
    ensures OnlyArrayWrappers(ForDataType(t, FinalTable).value)
    ensures BqArrayDepth(ForDataType(t, FinalTable).value) == P.ArrayDepth(t)
  {
    if t.Array? {
      NonArrayForDataTypeShape(t.elem);
    } else {
      NonArrayForDataTypeShape(t);
    }
  }

  /** A final-table type is JSON-safe exactly when the portable type has at
      most one level of array, since the wrappers have unnamed fields. */
  lemma FinalTableJsonSafe(t: P.DataType)
    requires ForDataType(t, FinalTable).Success?
    ensures JsonSafe(ForDataType(t, FinalTable).value) <==> P.ArrayDepth(t) <= 1
  {
    var b := ForDataType(t, FinalTable).value;
    if t.Array? && t.elem.Array? {
      UnsafeStructs(b.elem.fields, 0);
    }
  }

  /** In a final table an array directly inside an array becomes an array of
      one-field structs whose unnamed field is the inner array. This holds for
      arrays of arrays of JSON too: only a top-level array of JSON fails. */
  lemma NestedArrayWrapping(x: P.DataType)
    ensures NonArrayForDataType(x, FinalTable).Success?
    ensures ForDataType(P.Array(P.Array(x)), FinalTable)
            == Success(BqDataType.Array(Struct([BqStructField(None, BqDataType.Array(NonArrayForDataType(x, FinalTable).value))])))
  {
  }

  /** In CSV mode every type is flat: no array and no struct. */
  lemma CsvLoadIsFlat(t: P.DataType)
    ensures ForDataType(t, CsvLoad).Success?
    ensures BqArrayDepth(ForDataType(t, CsvLoad).value) == 0
    ensures OnlyArrayWrappers(ForDataType(t, CsvLoad).value)
  {
  }

  // ---------------------------------------------------------------------
  // Rendering

  /** `s` written `k` times. */
  function Repeat(s: string, k: nat): string
  {
    if k == 0 then "" else s + Repeat(s, k - 1)
  }

  lemma {:induction false} RepeatSnoc(s: string, k: nat)
    ensures Repeat(s, k + 1) == Repeat(s, k) + s
  {
    if k > 0 {
      RepeatSnoc(s, k - 1);
    }
  }

  /** Regrouping a concatenation of five strings. */
  lemma Regroup(a: string, r: string, n: string, t: string, b: string)
    ensures a + (r + n + t) + b == (a + r) + n + (t + b)
    ensures a + (r + n + t) + b == a + r + n + t + b
  {
  }

  /** The wrapper around an array of `inner` renders as `STRUCT<ARRAY<…>>`. */
  lemma WrapperRendering(inner: BqNonArrayDataType)
    ensures RenderNonArray(Struct([BqStructField(None, BqDataType.Array(inner))]))
            == "STRUCT<ARRAY<" + RenderNonArray(inner) + ">>"
  {
    var field := BqStructField(None, BqDataType.Array(inner));
    assert [field][..0] == [];
    assert RenderFields([field]) == RenderField(field);
    assert RenderField(field) == "ARRAY<" + RenderNonArray(inner) + ">";
  }

  /** One more level of nesting adds one wrapper. */
  lemma WrapOneLevel(k: nat, s: P.DataType)
    requires k > 0
    ensures NonArrayForDataType(P.ArrayOf(k - 1, s), FinalTable).Success?
    ensures NonArrayForDataType(P.ArrayOf(k, s), FinalTable)
            == Success(Struct([BqStructField(None, BqDataType.Array(NonArrayForDataType(P.ArrayOf(k - 1, s), FinalTable).value))]))
  {
    assert P.ArrayOf(k, s) == P.Array(P.ArrayOf(k - 1, s));
  }

  /** A portable array element nested `k` arrays deep renders as `k` layers
      of `STRUCT<ARRAY<…>>` around its scalar's type. */
  lemma {:induction false} NestedRendering(k: nat, s: P.DataType)
    requires !s.Array?
    ensures NonArrayForDataType(P.ArrayOf(k, s), FinalTable).Success?
    ensures RenderNonArray(NonArrayForDataType(P.ArrayOf(k, s), FinalTable).value)
            == Repeat("STRUCT<ARRAY<", k) + RenderNonArray(NonArrayForDataType(s, FinalTable).value) + Repeat(">>", k)
  {
    if k > 0 {
      NestedRendering(k - 1, s);
      WrapOneLevel(k, s);
      var inner := NonArrayForDataType(P.ArrayOf(k - 1, s), FinalTable).value;
      var outer := NonArrayForDataType(P.ArrayOf(k, s), FinalTable).value;
      assert outer == Struct([BqStructField(None, BqDataType.Array(inner))]);
      var open, close := "STRUCT<ARRAY<", ">>";
      WrapperRendering(inner);
      assert RenderNonArray(outer) == open + RenderNonArray(inner) + close;
      var name := RenderNonArray(NonArrayForDataType(s, FinalTable).value);
      var r, t := Repeat(open, k - 1), Repeat(close, k - 1);
      assert RenderNonArray(inner) == r + name + t;
      assert Repeat(open, k) == open + r;
      RepeatSnoc(close, k - 1);
      assert Repeat(close, k) == t + close;
      Regroup(open, r, name, t, close);
    } else {
      assert P.ArrayOf(k, s) == s;
    }
  }

  /** A top-level array other than an array of JSON becomes an `ARRAY` of
      its element's non-array type. */
  lemma TopLevelArray(k: nat, s: P.DataType)
    requires !s.Array?
    requires k > 0 || s != P.Json
    ensures NonArrayForDataType(P.ArrayOf(k, s), FinalTable).Success?
    ensures ForDataType(P.ArrayOf(k + 1, s), FinalTable)
            == Success(BqDataType.Array(NonArrayForDataType(P.ArrayOf(k, s), FinalTable).value))
  {
    assert P.ArrayOf(k + 1, s) == P.Array(P.ArrayOf(k, s));
    if k > 0 {
      assert P.ArrayOf(k, s).Array?;
    } else {
      assert P.ArrayOf(k, s) == s;
    }
  }

  /** A portable array `k + 1` levels deep renders as `ARRAY<` and `k` layers
      of `STRUCT<ARRAY<…>>` around its scalar's type, then `>`. */
  lemma NestedArrayRendering(k: nat, s: P.DataType)
    requires !s.Array?
    requires k > 0 || s != P.Json
    ensures ForDataType(P.ArrayOf(k + 1, s), FinalTable).Success?
    ensures Render(ForDataType(P.ArrayOf(k + 1, s), FinalTable).value)
            == "ARRAY<" + Repeat("STRUCT<ARRAY<", k)
               + RenderNonArray(NonArrayForDataType(s, FinalTable).value) + Repeat(">>", k) + ">"
  {
    NestedRendering(k, s);
    TopLevelArray(k, s);
    var n := NonArrayForDataType(P.ArrayOf(k, s), FinalTable).value;
    assert Render(BqDataType.Array(n)) == "ARRAY<" + RenderNonArray(n) + ">";
    var name := RenderNonArray(NonArrayForDataType(s, FinalTable).value);
    Regroup("ARRAY<", Repeat("STRUCT<ARRAY<", k), name, Repeat(">>", k), ">");
  }

  /** In CSV mode every portable array renders as `STRING`. */
  lemma CsvArrayRendersAsString(t: P.DataType)
    requires t.Array?
    ensures Render(ForDataType(t, CsvLoad).value) == "STRING"
  {
  }

  /** `ARRAY<ARRAY<ARRAY<INT32>>>` loads from CSV as `STRING`. */
  lemma NestedArraysCsvExample()
    ensures Render(ForDataType(P.ArrayOf(3, P.Int32), CsvLoad).value) == "STRING"
  {
    assert P.ArrayOf(3, P.Int32).Array?;
  }

  /** `ARRAY<ARRAY<ARRAY<INT32>>>` sits in a final table as
      `ARRAY<STRUCT<ARRAY<STRUCT<ARRAY<INT64>>>>>`. */
  lemma NestedArraysFinalTableExample()
    ensures ForDataType(P.ArrayOf(3, P.Int32), FinalTable).Success?
    ensures Render(ForDataType(P.ArrayOf(3, P.Int32), FinalTable).value)
            == "ARRAY<STRUCT<ARRAY<STRUCT<ARRAY<INT64>>>>>"
  {
    NestedArrayRendering(2, P.Int32);
    RepeatTwice("STRUCT<ARRAY<");
    RepeatTwice(">>");
    assert RenderNonArray(NonArrayForDataType(P.Int32, FinalTable).value) == "INT64";
    ExampleText();
  }

  lemma RepeatTwice(s: string)
    ensures Repeat(s, 2) == s + s
  {
    assert Repeat(s, 1) == s + "";
  }

  lemma ExampleText()
    ensures "ARRAY<" + ("STRUCT<ARRAY<" + "STRUCT<ARRAY<") + "INT64" + (">>" + ">>") + ">"
            == "ARRAY<STRUCT<ARRAY<STRUCT<ARRAY<INT64>>>>>"
  {
  }

  /** No rendered non-array type begins with `ARRAY<`, so the text of an
      array type never begins with two `ARRAY<` in a row. */
  lemma NoArrayDirectlyInArray(n: BqNonArrayDataType)
    ensures !("ARRAY<" <= RenderNonArray(n))
    ensures !("ARRAY<ARRAY<" <= Render(Array(n)))
  {
    var r := RenderNonArray(n);
    assert |r| > 0 && r[0] != 'A' by {
      if n.Struct? {
        assert r == "STRUCT<" + RenderFields(n.fields) + ">";
      }
    }
    assert Render(Array(n)) == "ARRAY<" + r + ">";
    assert Render(Array(n))[6] == r[0];
  }
}
