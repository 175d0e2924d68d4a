/** BigQuery's native type tree and its conversions to and from the portable
    `DataType` (the `bigquery_shared::data_type` module). */
module BigQueryDataType {
  import opened Wrappers
  import P = Schema

  /** How a BigQuery type is going to be used. */
  datatype Usage =
    /** Loading from CSV: BigQuery cannot load arrays from CSV, so they travel as `STRING`. */
    | CsvLoad
    /** The type of a column in the final table. */
    | FinalTable

  /** A BigQuery type. An array never holds another array directly: a nested
      array is wrapped in a one-field `STRUCT`. */
  datatype BqDataType =
    | Array(elem: BqNonArrayDataType)
    | NonArray(elem: BqNonArrayDataType)

  /** Every BigQuery type except `ARRAY`. */
  datatype BqNonArrayDataType =
    | Bool
    | Bytes
    | Date
    | Datetime
    | Float64
    | Geography
    | Int64
    | Numeric
    | String
    | Struct(fields: seq<BqStructField>)
    | Time
    | Timestamp

  /** A field of a `STRUCT`: an optional column name and a type. Names need
      not be unique within a struct. */
  datatype BqStructField = BqStructField(name: Option<string>, ty: BqDataType)

  /** The type cell of a BigQuery schema column: either a real non-array
      type or the placeholder `RECORD`, which stands for a `STRUCT` built
      from the column's `fields`. */
  datatype BqRecordOrNonArrayDataType =
    | Record
    | DataType(ty: BqNonArrayDataType)

  /** The `mode` of a BigQuery schema column (`column::Mode`). */
  datatype Mode = Nullable | Required | Repeated

  /** The errors this module raises, one per failure site. */
  datatype Error =
    /** "should never encounter nested arrays in CSV mode" */
    | NestedArrayInCsvMode
    /** "cannot represent arrays of JSON in BigQuery yet" */
    | ArrayOfJson
    /** "cannot convert <ty> to portable type (yet)" */
    | NotPortable(ty: BqNonArrayDataType)
    /** An error reported while converting a schema column to a struct field. */
    | ColumnError(message: string)

  /** A one-field struct with an unnamed field of array type: the shape that
      stands in for an array nested directly in an array. */
  predicate IsArrayWrapper(n: BqNonArrayDataType)
  {
    n.Struct? && |n.fields| == 1 && n.fields[0].name.None? && n.fields[0].ty.Array?
  }

  /** `BqNonArrayDataType::for_data_type`: the non-array BigQuery type for a
      portable type. A portable array can only arrive here nested inside
      another array: in CSV mode that is an error, otherwise it becomes a
      one-field struct holding the array. */
  function NonArrayForDataType(t: P.DataType, usage: Usage): (r: Result<BqNonArrayDataType, Error>)
    ensures r.Failure? <==> t.Array? && usage == CsvLoad
    ensures r.Failure? ==> r.error == NestedArrayInCsvMode
    ensures r.Success? && t.Array? ==> IsArrayWrapper(r.value)
    ensures !t.Array? ==> r.Success? && !r.value.Struct?
  {
    match t
    case Array(nested) =>
      if usage == CsvLoad then
        Failure(NestedArrayInCsvMode)
      else
        (match NonArrayForDataType(nested, usage)
         case Failure(e) => Failure(e)
         case Success(bqNested) => Success(Struct([BqStructField(None, BqDataType.Array(bqNested))])))
    case Bool => Success(Bool)
    case Date => Success(Date)
    case Decimal => Success(Numeric)
    case Float32 => Success(Float64)
    case Float64 => Success(Float64)
    case GeoJson(srid) => if srid == P.Wgs84 then Success(Geography) else Success(String)
    case Int16 => Success(Int64)
    case Int32 => Success(Int64)
    case Int64 => Success(Int64)
    case Json => Success(String)
    case Other(_) => Success(String)
    case Text => Success(String)
    case TimestampWithoutTimeZone => Success(Datetime)
    case TimestampWithTimeZone => Success(Timestamp)
    case Uuid => Success(String)
  }

  /** `BqDataType::for_data_type`: the BigQuery type for a portable type and
      an intended usage. */
  function ForDataType(t: P.DataType, usage: Usage): (r: Result<BqDataType, Error>)
    ensures t.Array? && usage == CsvLoad ==> r == Success(NonArray(String))
    ensures r.Failure? <==> usage == FinalTable && t == P.Array(P.Json)
    ensures r.Failure? ==> r.error == ArrayOfJson
    ensures r.Success? ==> (r.value.Array? <==> usage == FinalTable && t.Array?)
    ensures r.Success? && usage == CsvLoad ==> !r.value.elem.Struct?
  {
    match t
    case Array(nested) =>
      if usage == CsvLoad then
        Success(NonArray(String))
      else if nested == P.Json then
        assert usage == FinalTable;
        Failure(ArrayOfJson)
      else
        (match NonArrayForDataType(nested, usage)
         case Failure(e) => Failure(e)
         case Success(bqNested) => Success(BqDataType.Array(bqNested)))
    case _ =>
      match NonArrayForDataType(t, usage)
      case Failure(e) => Failure(e)
      case Success(bqOther) => Success(NonArray(bqOther))
  }

  /** `BqNonArrayDataType::to_data_type`: the portable type for a non-array
      BigQuery type. `BYTES` and `TIME` have none; any `STRUCT` reads back as
      JSON. */
  function NonArrayToDataType(n: BqNonArrayDataType): (r: Result<P.DataType, Error>)
    ensures r.Failure? <==> n == Bytes || n == Time
    ensures r.Failure? ==> r.error == NotPortable(n)
    ensures r.Success? ==> !r.value.Array? && (r.value == P.Json <==> n.Struct?)
  {
    match n
    case Bool => Success(P.Bool)
    case Date => Success(P.Date)
    case Numeric => Success(P.Decimal)
    case Float64 => Success(P.Float64)
    case Geography => Success(P.GeoJson(P.Wgs84))
    case Int64 => Success(P.Int64)
    case String => Success(P.Text)
    case Datetime => Success(P.TimestampWithoutTimeZone)
    case Struct(_) => Success(P.Json)
    case Timestamp => Success(P.TimestampWithTimeZone)
    case Bytes => Failure(NotPortable(n))
    case Time => Failure(NotPortable(n))
  }

  /** `BqDataType::to_data_type`: the portable type for a BigQuery type. An
      array of structs reads back as one JSON value rather than an array. */
  function ToDataType(b: BqDataType): (r: Result<P.DataType, Error>)
    ensures r.Failure? <==> b.elem == Bytes || b.elem == Time
    ensures r.Failure? ==> r.error == NotPortable(b.elem)
    ensures r.Success? ==> (r.value.Array? <==> b.Array? && !b.elem.Struct?)
    ensures r.Success? ==> P.ArrayDepth(r.value) <= 1
    ensures r.Success? && b.elem.Struct? ==> r.value == P.Json
    ensures b.NonArray? ==> r == NonArrayToDataType(b.elem)
    ensures b.Array? && !b.elem.Struct? && r.Success? ==>
              NonArrayToDataType(b.elem).Success? && r.value == P.Array(NonArrayToDataType(b.elem).value)
  {
    match b
    case Array(Struct(_)) => Success(P.Json)
    case Array(ty) =>
      (match NonArrayToDataType(ty)
       case Failure(e) => Failure(e)
       case Success(t) => Success(P.Array(t)))
    case NonArray(ty) => NonArrayToDataType(ty)
  }

  /** `BqDataType::bigquery_can_import_from_csv`. */
  predicate BqCanImportFromCsv(b: BqDataType)
  {
    match b
    case Array(_) => true
    case _ => false
  }

  /** `DataTypeBigQueryExt::bigquery_can_import_from_csv` on a portable type:
      convert it for a final table and ask the BigQuery type. */
  function CanImportFromCsv(t: P.DataType): (r: Result<bool, Error>)
    ensures r.Failure? <==> t == P.Array(P.Json)
    ensures r.Failure? ==> r.error == ArrayOfJson
    ensures r.Success? ==> (r.value <==> t.Array?)
  {
    var b :- ForDataType(t, FinalTable);
    Success(BqCanImportFromCsv(b))
  }

  /** The struct fields for a list of schema columns, converting each with
      `toField` (`BqColumn::to_struct_field`, which is not part of this model)
      and stopping at the first column that fails, as `collect::<Result<Vec<_>>>`
      does. */
  function CollectFields<C>(columns: seq<C>, toField: C -> Result<BqStructField, Error>)
    : (r: Result<seq<BqStructField>, Error>)
    ensures r.Success? <==> forall i :: 0 <= i < |columns| ==> toField(columns[i]).Success?
    ensures r.Success? ==>
              |r.value| == |columns|
              && forall i :: 0 <= i < |columns| ==> r.value[i] == toField(columns[i]).value
    ensures r.Failure? ==>
              exists i :: 0 <= i < |columns| && toField(columns[i]) == Failure(r.error)
                          && forall j :: 0 <= j < i ==> toField(columns[j]).Success?
  {
    if columns == [] then
      Success([])
    else
      var field :- toField(columns[0]);
      var rest :- CollectFields(columns[1..], toField);
      Success([field] + rest)
  }

  /** `BqRecordOrNonArrayDataType::to_bq_non_array_data_type`: `RECORD` becomes
      a struct of the converted fields; any other type is passed through and
      the fields are ignored. */
  function ToBqNonArrayDataType<C>(
    r: BqRecordOrNonArrayDataType, fields: seq<C>, toField: C -> Result<BqStructField, Error>)
    : (res: Result<BqNonArrayDataType, Error>)
    ensures r.DataType? ==> res == Success(r.ty)
    ensures r.Record? ==>
              (res.Success? <==> CollectFields(fields, toField).Success?)
              && (res.Success? ==> res.value == Struct(CollectFields(fields, toField).value))
              && (res.Failure? ==> res.error == CollectFields(fields, toField).error)
  {
    match r
    case Record =>
      var structFields :- CollectFields(fields, toField);
      Success(Struct(structFields))
    case DataType(ty) => Success(ty)
  }

  /** `BqRecordOrNonArrayDataType::to_bq_data_type`: a `REPEATED` column is an
      array of its type; `NULLABLE` and `REQUIRED` columns are not arrays. */
  function ToBqDataType<C>(
    r: BqRecordOrNonArrayDataType, mode: Mode, fields: seq<C>, toField: C -> Result<BqStructField, Error>)
    : (res: Result<BqDataType, Error>)
    ensures res.Success? <==> ToBqNonArrayDataType(r, fields, toField).Success?
    ensures res.Success? ==>
              (res.value.Array? <==> mode == Repeated)
              && res.value.elem == ToBqNonArrayDataType(r, fields, toField).value
    ensures res.Failure? ==> res.error == ToBqNonArrayDataType(r, fields, toField).error
  {
    var ty :- ToBqNonArrayDataType(r, fields, toField);
    match mode
    case Repeated => Success(BqDataType.Array(ty))
    case Nullable => Success(NonArray(ty))
    case Required => Success(NonArray(ty))
  }

  /** `is_json_safe` on `BqDataType`: an array or non-array type is JSON-safe
      when its element type is. */
  predicate JsonSafe(b: BqDataType)
    decreases b
  {
    NonArrayJsonSafe(b.elem)
  }

  /** `is_json_safe` on `BqNonArrayDataType`: every non-struct type is safe; a
      struct is safe when each of its fields has a name and a safe type
      (names are not checked for uniqueness). */
  predicate NonArrayJsonSafe(n: BqNonArrayDataType)
    decreases n
  {
    match n
    case Struct(fields) =>
      forall i :: 0 <= i < |fields| ==> fields[i].name.Some? && JsonSafe(fields[i].ty)
    case _ => true
  }
}
