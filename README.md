# BigQuery type mapping of dbcrossbar, in Dafny

dbcrossbar copies tables between databases through a portable column type,
`DataType`. Its BigQuery driver maps each portable type to a native BigQuery
type and back (`dbcrossbarlib/src/drivers/bigquery_shared/data_type.rs`).
BigQuery types form a small tree:

- `BqDataType` is `ARRAY<t>` or a plain `t`.
- `t` is a `BqNonArrayDataType`: a scalar tag or `STRUCT<…>`.
- A struct field is an optional name and a `BqDataType`.

Because an `ARRAY` may not hold another `ARRAY`, a portable array of arrays is
stored as `ARRAY<STRUCT<ARRAY<…>>>`. The struct has one unnamed field.

This project models that module:

- **`BigQueryDataType`** (`bigquery_data_type.dfy`) holds the datatypes and the
  pure conversions. These are the forward map `ForDataType` and
  `NonArrayForDataType` (per `Usage`), the reverse map `ToDataType` and
  `NonArrayToDataType`, the CSV-import check, the `Mode`/`RECORD` lift of
  schema columns, and the `is_json_safe` specification.
- **`BigQueryDisplay`** (`bigquery_display.dfy`) holds the `Display` output.
  The `Render*` functions give the text. The `Format*` methods build the text
  the way the formatter does: the struct case is a loop with a separator that
  writes nothing the first time and `,` afterwards. Each method is proved to
  produce the function's text.
- **`BigQueryJsonSafe`** (`bigquery_json_safe.dfy`) holds `is_json_safe` as
  methods. They keep the source's loop and early returns, and they build a
  fresh name set for each field, as the source does. A lemma shows that a type
  is JSON-safe exactly when no struct field at any depth is unnamed.
- **`BigQueryProperties`** (`bigquery_properties.dfy`) holds the lemmas:
  - which portable types survive a round trip through a final table;
  - what the lossy types come back as;
  - the wrapper shape and the preserved array depth;
  - the rendering of nested arrays, including the source's own test case;
  - when a final-table type is JSON-safe.
- **`Schema`** (`schema.dfy`) holds the portable `DataType` and `Srid`.
  **`Wrappers`** (`wrappers.dfy`) holds `Option` and `Result`.

Errors are values of `BigQueryDataType.Error`, with one variant for each
`format_err!` call in the module. There is also `ColumnError` for failures
that come back from column conversion.

Two points about the code's behaviour:

- The portable `Other(_)`, `Json` and `Uuid` types, and `GeoJson` with an SRID
  other than WGS 84, map to `STRING`. They do not fail, so the model does not
  fail either.
- The portable `Decimal` carries no precision, so `Decimal ↔ NUMERIC` is
  lossless.

## Model

| member | source | states |
|---|---|---|
| `BigQueryDataType.ForDataType` | dbcrossbarlib/src/drivers/bigquery_shared/data_type.rs:66-90 | In CSV mode every portable array becomes `STRING`. The map fails exactly for a top-level array of JSON in a final table, and that error is "arrays of JSON". The result is an `ARRAY` exactly for a portable array in a final table. In CSV mode the result contains no struct. Which scalar each portable scalar becomes is stated by `ScalarMapping`. |
| `BigQueryDataType.NonArrayForDataType` | dbcrossbarlib/src/drivers/bigquery_shared/data_type.rs:277-319 | Fails exactly for an array in CSV mode, with the "nested arrays in CSV mode" error. A nested array becomes a one-field struct whose unnamed field is an array. A non-array portable type never fails and never becomes a struct; `ScalarMapping` names the type it becomes. |
| `BigQueryDataType.NonArrayToDataType` | dbcrossbarlib/src/drivers/bigquery_shared/data_type.rs:322-339 | Fails exactly for `BYTES` and `TIME`, and the error names that type. Otherwise the result is never an array, and it is JSON exactly when the input is a struct. |
| `BigQueryDataType.ToDataType` | dbcrossbarlib/src/drivers/bigquery_shared/data_type.rs:93-111 | Fails exactly when the element type is `BYTES` or `TIME`, with an error naming that type. A successful `ARRAY<STRUCT<…>>` or `STRUCT<…>` becomes `Json`. A non-array type reads back as its non-array conversion. An `ARRAY` of a non-struct becomes a portable array of its element's conversion. The result is a portable array exactly for an `ARRAY` of a non-struct, and it is never more than one array deep. |
| `BigQueryDataType.CanImportFromCsv` | dbcrossbarlib/src/drivers/bigquery_shared/data_type.rs:29-35 | Uses `BqCanImportFromCsv` (lines 114-119). Fails exactly for an array of JSON. Otherwise it returns true exactly for portable arrays. |
| `BigQueryDataType.CollectFields` | dbcrossbarlib/src/drivers/bigquery_shared/data_type.rs:197-200 | Succeeds exactly when every column converts. The fields are then the converted columns, in order. On failure the error comes from the first column that fails. |
| `BigQueryDataType.ToBqNonArrayDataType` | dbcrossbarlib/src/drivers/bigquery_shared/data_type.rs:191-205 | A non-`RECORD` type is passed through unchanged. `RECORD` becomes a struct of the collected fields, and fails exactly when collection fails, with the same error. |
| `BigQueryDataType.ToBqDataType` | dbcrossbarlib/src/drivers/bigquery_shared/data_type.rs:178-188 | The result is an `ARRAY` exactly for `REPEATED` mode. `NULLABLE` and `REQUIRED` give a non-array. The element is the converted type, and failures are passed on. |
| `BigQueryDisplay.FormatDataType` | dbcrossbarlib/src/drivers/bigquery_shared/data_type.rs:146-153 | Writes `ARRAY<…>` around the element's text, or the element's text alone (`Render`). |
| `BigQueryDisplay.FormatNonArray` | dbcrossbarlib/src/drivers/bigquery_shared/data_type.rs:383-407 | Writes the scalar names. A struct is `STRUCT<`, the fields joined by `,` with no space, then `>`. The loop keeps the text so far equal to `RenderFields` of the fields written so far. |
| `BigQueryDisplay.FormatField` | dbcrossbarlib/src/drivers/bigquery_shared/data_type.rs:435-444 | Writes the name and one space when there is a name, then the field's type. |
| `BigQueryDisplay.FormatRecordOrNonArray` | dbcrossbarlib/src/drivers/bigquery_shared/data_type.rs:224-231 | Writes `RECORD`, or the non-array type's text. |
| `BigQueryDisplay.RecordTextIsUnambiguous` | dbcrossbarlib/src/drivers/bigquery_shared/data_type.rs:224-231 | A schema type cell renders as `RECORD` exactly when it is the `RECORD` placeholder: no real non-array type has that text. |
| `BigQueryJsonSafe.IsJsonSafe` | dbcrossbarlib/src/drivers/bigquery_shared/data_type.rs:122-127 | Returns the `is_json_safe` answer. That answer is true exactly when no struct field at any depth is unnamed. |
| `BigQueryJsonSafe.NonArrayIsJsonSafe` | dbcrossbarlib/src/drivers/bigquery_shared/data_type.rs:342-364 | A non-struct is safe. A struct is safe exactly when every field is named and of a safe type. The loop invariant says this holds for every field already checked. |
| `BigQueryJsonSafe.JsonSafeIffAllFieldsNamed` | dbcrossbarlib/src/drivers/bigquery_shared/data_type.rs:342-363 | `is_json_safe` holds exactly when the preorder list of all struct field names contains no `None`. |
| `BigQueryJsonSafe.NonStructIsJsonSafe` | dbcrossbarlib/src/drivers/bigquery_shared/data_type.rs:362 | Every type whose element is not a struct is JSON-safe. |
| `BigQueryJsonSafe.ArrayJsonSafeIffElementSafe` | dbcrossbarlib/src/drivers/bigquery_shared/data_type.rs:123-125 | An array is safe exactly when its element type is. |
| `BigQueryJsonSafe.UnsafeStructs` | dbcrossbarlib/src/drivers/bigquery_shared/data_type.rs:352-358 | A struct with an unnamed field, or with a field of an unsafe type, is unsafe. |
| `BigQueryJsonSafe.RepeatedNamesAreAccepted` | dbcrossbarlib/src/drivers/bigquery_shared/data_type.rs:351-353 | The name set is rebuilt for each field, so a struct with two fields of the same name is still safe. |
| `BigQueryProperties.FinalTableRoundTrip` | dbcrossbarlib/src/drivers/bigquery_shared/data_type.rs:296-333 | Every portable type except an array of JSON maps to a final-table type. Reading it back gives `StoredAs(t)`, the independent table of what each type is stored as. |
| `BigQueryProperties.RoundTripExactlyWhenLossless` | dbcrossbarlib/src/drivers/bigquery_shared/data_type.rs:296-333 | A type comes back unchanged exactly when it is one of Bool, Date, Decimal, Float64, Int64, Text, the two timestamps, GeoJson(WGS 84), or a one-level array of these. |
| `BigQueryProperties.ReadBackIsStoredAs` | dbcrossbarlib/src/drivers/bigquery_shared/data_type.rs:296-333 | Going to a final table and reading the type back gives `StoredAs(t)`, for every type except an array of JSON. |
| `BigQueryProperties.WideningMappings` | dbcrossbarlib/src/drivers/bigquery_shared/data_type.rs:296-333 | On the trip to a final table and back, `Int16` and `Int32` come back as `Int64`, and `Float32` as `Float64`. |
| `BigQueryProperties.TextMappings` | dbcrossbarlib/src/drivers/bigquery_shared/data_type.rs:296-317 | On the trip to a final table and back, `Json`, `Uuid`, `Other(_)` and non-WGS 84 `GeoJson` come back as `Text`. |
| `BigQueryProperties.NestedArrayMapping` | dbcrossbarlib/src/drivers/bigquery_shared/data_type.rs:93-107 | On the trip to a final table and back, any array of arrays comes back as one `Json` value. |
| `BigQueryProperties.ScalarMapping` | dbcrossbarlib/src/drivers/bigquery_shared/data_type.rs:296-317 | For either usage, every portable scalar becomes a non-array BigQuery type. Its text is the one in the reference table `BqScalarName`: `DATETIME` for timestamps without a time zone, `TIMESTAMP` for those with one, `STRING` for unknown types, and so on. |
| `BigQueryProperties.ScalarMappingIgnoresUsage` | dbcrossbarlib/src/drivers/bigquery_shared/data_type.rs:70-88 | A scalar maps to the same BigQuery type in CSV mode as in a final table. |
| `BigQueryProperties.BigQueryRoundTrip` | dbcrossbarlib/src/drivers/bigquery_shared/data_type.rs:107-109 | Every portable type read from BigQuery maps back to a final-table type. A type with no struct maps back to itself. |
| `BigQueryProperties.NonArrayForDataTypeShape` | dbcrossbarlib/src/drivers/bigquery_shared/data_type.rs:288-295 | In a final table a nested type never fails. It contains only array wrappers, one for each level of array. |
| `BigQueryProperties.ForDataTypeShape` | dbcrossbarlib/src/drivers/bigquery_shared/data_type.rs:76-84 | Every struct in a final-table type wraps a nested array. The number of arrays, counting wrapped ones, equals the portable type's depth. |
| `BigQueryProperties.NestedArrayWrapping` | dbcrossbarlib/src/drivers/bigquery_shared/data_type.rs:288-295 | `Array(Array(x))` becomes `ARRAY<STRUCT<ARRAY<x'>>>` with an unnamed field, where `x'` is `x` converted. This holds even when `x` is JSON. |
| `BigQueryProperties.FinalTableJsonSafe` | dbcrossbarlib/src/drivers/bigquery_shared/data_type.rs:342-360 | A final-table type is JSON-safe exactly when the portable type has at most one level of array. |
| `BigQueryProperties.CsvLoadIsFlat` | dbcrossbarlib/src/drivers/bigquery_shared/data_type.rs:73-75 | In CSV mode the map always succeeds, with no array and no struct. |
| `BigQueryProperties.WrapperRendering` | dbcrossbarlib/src/drivers/bigquery_shared/data_type.rs:395-402 | A wrapper renders as `STRUCT<ARRAY<…>>`. |
| `BigQueryProperties.NestedRendering` | dbcrossbarlib/src/drivers/bigquery_shared/data_type.rs:288-295 | A type nested `k` arrays deep renders as `k` layers of `STRUCT<ARRAY<…>>` around its scalar. |
| `BigQueryProperties.TopLevelArray` | dbcrossbarlib/src/drivers/bigquery_shared/data_type.rs:76-84 | In a final table, any portable array except an array of JSON, at any depth, becomes an `ARRAY` of what its element maps to as a non-array type. |
| `BigQueryProperties.NestedArrayRendering` | dbcrossbarlib/src/drivers/bigquery_shared/data_type.rs:457-461 | A portable array `k + 1` deep renders as `ARRAY<`, then `k` layers of `STRUCT<ARRAY<`, the scalar, `k` pairs of `>>`, and a final `>`. |
| `BigQueryProperties.CsvArrayRendersAsString` | dbcrossbarlib/src/drivers/bigquery_shared/data_type.rs:452-454 | In CSV mode every portable array renders as `STRING`. |
| `BigQueryProperties.NestedArraysCsvExample` | dbcrossbarlib/src/drivers/bigquery_shared/data_type.rs:446-454 | `Array(Array(Array(Int32)))` renders as `STRING` in CSV mode. |
| `BigQueryProperties.NestedArraysFinalTableExample` | dbcrossbarlib/src/drivers/bigquery_shared/data_type.rs:456-461 | The same type renders as `ARRAY<STRUCT<ARRAY<STRUCT<ARRAY<INT64>>>>>` in a final table. |
| `BigQueryProperties.NoArrayDirectlyInArray` | dbcrossbarlib/src/drivers/bigquery_shared/data_type.rs:54-56 | No non-array type's text begins with `ARRAY<`, so no rendered type begins with `ARRAY<ARRAY<`. |

## Left out

- The `rust-peg` grammar (`grammar::data_type` and its siblings) is generated at build time and is not part of this model. So BigQuery type strings are not parsed, the parse tests are not modelled, and nothing is proved about display followed by parse.
- The serde `Serialize`/`Deserialize` impls only wrap `Display` and the parser.
- `BqColumn`, `Mode` and `BqColumn::to_struct_field` live in `column.rs`, which is not part of this model. A column is a type parameter, its conversion is a function parameter that may fail, and `Mode` is modelled as its three values.
- `crate::schema` is not part of this model. `Srid` is a code number, and WGS 84 is taken to be 4326.
- `crate::separator::Separator` is not part of this model. It is taken to display nothing the first time and its separator after that.
- Error messages are error variants, not text. The formatting of the message for `BYTES` and `TIME` is not modelled, though the variant carries the type.
- `BqNonArrayDataType::is_json_safe`'s comment (lines 346-350) asks for unique field names. The code does call `insert` on a name set, but the set is created anew for each field, so a duplicate is never detected. The model follows the code and does not claim uniqueness (see `RepeatedNamesAreAccepted`).
- Writing to the formatter is taken never to fail: the `fmt::Result` that each `write!(…)?` in the `Display` impls may return early with is not modelled, so the `Format*` methods always produce the whole text.
- `Cow` borrowing in `to_bq_non_array_data_type` is not modelled; only the value returned is.
- The rest of the repository is not part of this model: the Redshift local-data writer (asynchronous upload and loading), the Postgres row count (a database query), and the command-line conversion tests (end-to-end processes).
