/** `is_json_safe`: can a BigQuery value of this type be turned into JSON by
    `TO_JSON_STRING` without producing `""` keys? The methods follow the
    source's loop with its early returns; a lemma characterises the answer by
    the names of all struct fields, at any depth. */
module BigQueryJsonSafe {
  import opened Wrappers
  import opened BigQueryDataType

  /** `BqDataType::is_json_safe`. */
  method IsJsonSafe(b: BqDataType) returns (safe: bool)
    ensures safe == JsonSafe(b)
    ensures safe <==> None !in FieldNames(b)
    decreases b, 1
  {
    match b {
      case Array(ty) => safe := NonArrayIsJsonSafe(ty);
      case NonArray(ty) => safe := NonArrayIsJsonSafe(ty);
    }
    JsonSafeIffAllFieldsNamed(b);
  }

  /** `BqNonArrayDataType::is_json_safe`. The set of names seen is created
      anew for each field, as in the source, so a repeated name is never
      noticed. */
  method NonArrayIsJsonSafe(n: BqNonArrayDataType) returns (safe: bool)
    ensures safe == NonArrayJsonSafe(n)
    decreases n, 0
  {
    match n {
      case Struct(fields) =>
        var i := 0;
        while i < |fields|
          invariant 0 <= i <= |fields|
          invariant forall j :: 0 <= j < i ==> fields[j].name.Some? && JsonSafe(fields[j].ty)
        {
          var field := fields[i];
          var names: set<string> := {};
          if field.name.Some? {
            var name := field.name.value;
            var inserted := name !in names;
            names := names + {name};
            if !inserted {
              return false;
            }
            var fieldSafe := IsJsonSafe(field.ty);
            if !fieldSafe {
              return false;
            }
          } else {
            return false;
          }
          i := i + 1;
        }
        return true;
      case _ =>
        return true;
    }
  }

  /** The names of all struct fields inside `b`, at any depth, in the order
      they are written. */
  function FieldNames(b: BqDataType): seq<Option<string>>
    decreases b
  {
    NonArrayFieldNames(b.elem)
  }

  function NonArrayFieldNames(n: BqNonArrayDataType): seq<Option<string>>
    decreases n
  {
    if n.Struct? then FieldsNames(n.fields) else []
  }

  function FieldsNames(fields: seq<BqStructField>): seq<Option<string>>
    decreases fields
  {
    if fields == [] then []
    else FieldNamesWithin(fields[0]) + FieldsNames(fields[1..])
  }

  /** A field's own name followed by the names inside its type. */
  function FieldNamesWithin(field: BqStructField): seq<Option<string>>
    decreases field
  {
    [field.name] + FieldNames(field.ty)
  }

  /** A type is JSON-safe exactly when no struct field anywhere inside it is
      unnamed. */
  lemma {:induction false} JsonSafeIffAllFieldsNamed(b: BqDataType)
    ensures JsonSafe(b) <==> None !in FieldNames(b)
    decreases b, 2
  {
    NonArrayJsonSafeIffAllFieldsNamed(b.elem);
  }

  lemma {:induction false} NonArrayJsonSafeIffAllFieldsNamed(n: BqNonArrayDataType)
    ensures NonArrayJsonSafe(n) <==> None !in NonArrayFieldNames(n)
    decreases n, 1
  {
    if n.Struct? {
      FieldsSafeIffAllNamed(n.fields);
    }
  }

  lemma {:induction false} FieldsSafeIffAllNamed(fields: seq<BqStructField>)
    ensures (forall i :: 0 <= i < |fields| ==> fields[i].name.Some? && JsonSafe(fields[i].ty))
            <==> None !in FieldsNames(fields)
    decreases fields, 0
  {
    if fields != [] {
      FieldSafeIffAllNamed(fields[0]);
      FieldsSafeIffAllNamed(fields[1..]);
      var rest := fields[1..];
      assert forall i :: 1 <= i < |fields| ==> fields[i] == rest[i - 1];
    }
  }

  lemma {:induction false} FieldSafeIffAllNamed(field: BqStructField)
    ensures field.name.Some? && JsonSafe(field.ty) <==> None !in FieldNamesWithin(field)
    decreases field, 3
  {
    JsonSafeIffAllFieldsNamed(field.ty);
  }

  /** Every type without a struct is JSON-safe, array or not. */
  lemma NonStructIsJsonSafe(b: BqDataType)
    requires !b.elem.Struct?
    ensures JsonSafe(b)
  {
  }

  /** An array is JSON-safe exactly when its element type is. */
  lemma ArrayJsonSafeIffElementSafe(n: BqNonArrayDataType)
    ensures JsonSafe(Array(n)) <==> JsonSafe(NonArray(n))
  {
  }

  /** A struct with an unnamed field, or with a field of an unsafe type, is
      not JSON-safe. */
  lemma UnsafeStructs(fields: seq<BqStructField>, i: nat)
    requires i < |fields|
    requires fields[i].name.None? || !JsonSafe(fields[i].ty)
    ensures !NonArrayJsonSafe(Struct(fields))
  {
  }

  /** Repeated field names are accepted: two fields both named `x` of a safe
      type make a safe struct. */
  lemma RepeatedNamesAreAccepted(x: string)
    ensures NonArrayJsonSafe(Struct([BqStructField(Some(x), NonArray(Int64)), BqStructField(Some(x), NonArray(Int64))]))
  {
  }
}
