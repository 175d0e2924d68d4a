/** The portable, database-independent column type (`crate::schema::DataType`)
    as far as the BigQuery type mapping sees it. */
module Schema {

  /** A spatial reference identifier. Only its identity matters to the
      BigQuery mapping, which singles out WGS 84. */
  datatype Srid = Srid(code: nat)

  /** WGS 84, EPSG code 4326. */
  const Wgs84: Srid := Srid(4326)

  /** The closed set of portable types. */
  datatype DataType =
    | Array(elem: DataType)
    | Bool
    | Date
    | Decimal
    | Float32
    | Float64
    | GeoJson(srid: Srid)
    | Int16
    | Int32
    | Int64
    | Json
    | Other(name: string)
    | Text
    | TimestampWithoutTimeZone
    | TimestampWithTimeZone
    | Uuid

  /** How many `Array` constructors are stacked at the top of `t`. */
  function ArrayDepth(t: DataType): nat
  {
    if t.Array? then 1 + ArrayDepth(t.elem) else 0
  }

  /** `k` arrays around `t`: `ArrayOf(2, Int32)` is `Array(Array(Int32))`. */
  function ArrayOf(k: nat, t: DataType): DataType
  {
    if k == 0 then t else Array(ArrayOf(k - 1, t))
  }
}
