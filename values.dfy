/**
 * The C++ value types a statement can bind and a table can hold: the
 * fixed-width integers, `float`, `double`, `bool`, `Timestamp`,
 * `String< Size >`, `Number< Size >` and `Nullable< T >`.
 */
module Values {

  datatype ValueType =
    | Int8 | Int16 | Int32 | Int64
    | UInt8 | UInt16 | UInt32 | UInt64
    | Float | Double
    | Bool
    | Timestamp
    | String(size: nat)
    | Number(size: nat)
    | Nullable(inner: ValueType)

  predicate IsUnsigned(t: ValueType)
  {
    t.UInt8? || t.UInt16? || t.UInt32? || t.UInt64?
  }
}
