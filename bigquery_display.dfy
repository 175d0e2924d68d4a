/** The `Display` rendering of BigQuery types as BigQuery SQL type strings:
    `Render*` functions say what is written, `Format*` methods write it the
    way the formatter does, piece by piece. */
module BigQueryDisplay {
  import opened Wrappers
  import opened BigQueryDataType

  /** The text of a BigQuery type. */
  function Render(b: BqDataType): string
    decreases b
  {
    match b
    case Array(elementType) => "ARRAY<" + RenderNonArray(elementType) + ">"
    case NonArray(ty) => RenderNonArray(ty)
  }

  /** The text of a non-array BigQuery type. */
  function RenderNonArray(n: BqNonArrayDataType): string
    decreases n
  {
    match n
    case Bool => "BOOL"
    case Bytes => "BYTES"
    case Date => "DATE"
    case Datetime => "DATETIME"
    case Float64 => "FLOAT64"
    case Geography => "GEOGRAPHY"
    case Int64 => "INT64"
    case Numeric => "NUMERIC"
    case String => "STRING"
    case Struct(fields) => "STRUCT<" + RenderFields(fields) + ">"
    case Time => "TIME"
    case Timestamp => "TIMESTAMP"
  }

  /** What a fresh `Separator::new(",")` displays on its `i`-th use: nothing
      the first time, a comma after that. */
  function Separator(i: nat): string
  {
    if i == 0 then "" else ","
  }

  /** The fields of a struct, each preceded by its separator. */
  function RenderFields(fields: seq<BqStructField>): string
    decreases fields
  {
    if fields == [] then ""
    else RenderFields(fields[..|fields| - 1]) + Separator(|fields| - 1) + RenderField(fields[|fields| - 1])
  }

  /** A struct field: its name and a space when it has one, then its type. */
  function RenderField(field: BqStructField): string
    decreases field
  {
    (if field.name.Some? then field.name.value + " " else "") + Render(field.ty)
  }

  /** The text of a schema column type cell. */
  function RenderRecordOrNonArray(r: BqRecordOrNonArrayDataType): string
  {
    match r
    case Record => "RECORD"
    case DataType(ty) => RenderNonArray(ty)
  }

  /** The placeholder text `RECORD` is never the text of a real non-array
      type, so a schema type cell says unambiguously which one it holds. */
  lemma RecordTextIsUnambiguous(r: BqRecordOrNonArrayDataType)
    ensures RenderRecordOrNonArray(r) == "RECORD" <==> r.Record?
  {
    if r.DataType? && r.ty.Struct? {
      var text := RenderNonArray(r.ty);
      assert text == "STRUCT<" + RenderFields(r.ty.fields) + ">";
      assert text[1] == 'T' != "RECORD"[1];
    }
  }

  /** `impl Display for BqDataType`. */
  method FormatDataType(b: BqDataType) returns (out: string)
    ensures out == Render(b)
    decreases b, 1
  {
    match b
    case Array(elementType) =>
      var inner := FormatNonArray(elementType);
      out := "ARRAY<" + inner + ">";
    case NonArray(ty) =>
      out := FormatNonArray(ty);
  }

  /** `impl Display for BqNonArrayDataType`. The struct arm writes `STRUCT<`,
      then each field after the separator's current text, then `>`. */
  method FormatNonArray(n: BqNonArrayDataType) returns (out: string)
    ensures out == RenderNonArray(n)
    decreases n, 0
  {
    match n {
      case Struct(fields) =>
        out := "STRUCT<";
        var first := true;
        var i := 0;
        while i < |fields|
          invariant 0 <= i <= |fields|
          invariant first <==> i == 0
          invariant out == "STRUCT<" + RenderFields(fields[..i])
        {
          var sep := if first then "" else ",";
          first := false;
          var field := FormatField(fields[i]);
          assert fields[..i + 1][..i] == fields[..i];
          out := out + sep + field;
          i := i + 1;
        }
        assert fields[..i] == fields;
        out := out + ">";
      case Bool => out := "BOOL";
      case Bytes => out := "BYTES";
      case Date => out := "DATE";
      case Datetime => out := "DATETIME";
      case Float64 => out := "FLOAT64";
      case Geography => out := "GEOGRAPHY";
      case Int64 => out := "INT64";
      case Numeric => out := "NUMERIC";
      case String => out := "STRING";
      case Time => out := "TIME";
      case Timestamp => out := "TIMESTAMP";
    }
  }

  /** `impl Display for BqStructField`. */
  method FormatField(field: BqStructField) returns (out: string)
    ensures out == RenderField(field)
    decreases field, 2
  {
    out := "";
    if field.name.Some? {
      out := field.name.value + " ";
    }
    var ty := FormatDataType(field.ty);
    out := out + ty;
  }

  /** `impl Display for BqRecordOrNonArrayDataType`. */
  method FormatRecordOrNonArray(r: BqRecordOrNonArrayDataType) returns (out: string)
    ensures out == RenderRecordOrNonArray(r)
  {
    match r
    case Record => out := "RECORD";
    case DataType(ty) => out := FormatNonArray(ty);
  }
}
