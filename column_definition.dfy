/**
 * The column definition of each value type: its SQL type name, its size
 * (0 for none) and its constraint. `Nullable< T >` reuses T's type and size
 * and relaxes the constraint to NULL; every other type is NOT NULL. `bool`
 * has no column definition.
 */
module ColumnDefinitions {
  import opened Values
  import Driver

  datatype ColumnDefinition = ColumnDefinition(sqlType: string, size: nat, constraint: string)

  /** The column definition of `t`, or None where the type has none. */
  function DefinitionOf(t: ValueType): Driver.Option<ColumnDefinition>
  {
    match t
    case Int8 => Driver.Some(ColumnDefinition("TINYINT", 0, "NOT NULL"))
    case Int16 => Driver.Some(ColumnDefinition("SMALLINT", 0, "NOT NULL"))
    case Int32 => Driver.Some(ColumnDefinition("INT", 0, "NOT NULL"))
    case Int64 => Driver.Some(ColumnDefinition("BIGINT", 0, "NOT NULL"))
    case UInt8 => Driver.Some(ColumnDefinition("TINYINT UNSIGNED", 0, "NOT NULL"))
    case UInt16 => Driver.Some(ColumnDefinition("SMALLINT UNSIGNED", 0, "NOT NULL"))
    case UInt32 => Driver.Some(ColumnDefinition("INT UNSIGNED", 0, "NOT NULL"))
    case UInt64 => Driver.Some(ColumnDefinition("BIGINT UNSIGNED", 0, "NOT NULL"))
    case Float => Driver.Some(ColumnDefinition("REAL", 0, "NOT NULL"))
    case Double => Driver.Some(ColumnDefinition("DOUBLE PRECISION", 0, "NOT NULL"))
    case Bool => Driver.None
    case Timestamp => Driver.Some(ColumnDefinition("TIMESTAMP", 0, "NOT NULL"))
    case String(n) => Driver.Some(ColumnDefinition("VARCHAR", n, "NOT NULL"))
    case Number(n) => Driver.Some(ColumnDefinition("NUMBER", n, "NOT NULL"))
    case Nullable(inner) =>
      match DefinitionOf(inner)
      case None => Driver.None
      case Some(d) => Driver.Some(ColumnDefinition(d.sqlType, d.size, "NULL"))
  }

  /** The signed type an unsigned integer type corresponds to. */
  function SignedOf(t: ValueType): ValueType
    requires IsUnsigned(t)
  {
    match t
    case UInt8 => Int8
    case UInt16 => Int16
    case UInt32 => Int32
    case UInt64 => Int64
  }

  /** Exactly the nullable types may hold NULL; the others are NOT NULL. */
  lemma {:induction false} ConstraintIsNullability(t: ValueType)
    requires DefinitionOf(t).Some?
    ensures DefinitionOf(t).value.constraint == (if t.Nullable? then "NULL" else "NOT NULL")
  {
  }

  /** A nullable column has its inner type's SQL type and size, and exists exactly when the inner one does. */
  lemma NullableInheritsDefinition(t: ValueType)
    ensures DefinitionOf(Nullable(t)).Some? <==> DefinitionOf(t).Some?
    ensures DefinitionOf(t).Some? ==>
      DefinitionOf(Nullable(t)).value.sqlType == DefinitionOf(t).value.sqlType
      && DefinitionOf(Nullable(t)).value.size == DefinitionOf(t).value.size
  {
  }

  /** Only strings and numbers carry a size, which is their declared one; all else has size 0. */
  lemma {:induction false} SizeOnlyForSizedTypes(t: ValueType)
    requires DefinitionOf(t).Some?
    ensures var d := DefinitionOf(t).value;
      (t.String? ==> d.sqlType == "VARCHAR" && d.size == t.size)
      && (t.Number? ==> d.sqlType == "NUMBER" && d.size == t.size)
      && (!t.String? && !t.Number? && !t.Nullable? ==> d.size == 0)
  {
  }

  /** Every unsigned integer type's name is its signed counterpart's followed by " UNSIGNED". */
  lemma UnsignedNames(t: ValueType)
    requires IsUnsigned(t)
    ensures DefinitionOf(t).Some? && DefinitionOf(SignedOf(t)).Some?
    ensures DefinitionOf(t).value.sqlType == DefinitionOf(SignedOf(t)).value.sqlType + " UNSIGNED"
  {
  }

  /** Exactly the types other than `bool`, possibly wrapped in Nullable, have a definition. */
  lemma {:induction false} DefinedUnlessBool(t: ValueType)
    ensures DefinitionOf(t).Some? <==> !BaseIsBool(t)
  {
    if t.Nullable? {
      DefinedUnlessBool(t.inner);
    }
  }

  predicate BaseIsBool(t: ValueType)
  {
    if t.Nullable? then BaseIsBool(t.inner) else t.Bool?
  }
}
