/**
 * The two mapping tables of the executer: from a declared parameter type to the
 * DbType the parameter is created with, and to the three-letter token that the
 * stored procedure's parameter names carry. By-ref (`out`) types are first
 * unwrapped to the type they point at.
 */
module TypeMapping {
  import opened Wrappers
  import opened Platform

  /** The one unwrapping step both tables start with. */
  function Unwrap(t: ClrType): (u: ClrType)
    ensures t.ByRef? ==> u == t.element
    ensures !t.ByRef? ==> u == t
  {
    if t.ByRef? then t.element else t
  }

  /** The six integer types. */
  predicate IsIntegral(t: ClrType) {
    t.Int? || t.UInt? || t.Long? || t.ULong? || t.Short? || t.UShort?
  }

  /** The twelve types both tables accept (after unwrapping). */
  predicate Supported(t: ClrType) {
    IsIntegral(t) || t == ClrType.Decimal || t.Float? || t == ClrType.Double
    || t == ClrType.String || t == ClrType.DateTime || t.Bool?
  }

  /**
   * The CLR type whose natural database type `d` is; the reference the DbType
   * table is checked against.
   */
  function NativeClrType(d: DbType): ClrType {
    match d
    case Int32 => Int
    case UInt32 => UInt
    case Int64 => Long
    case UInt64 => ULong
    case Int16 => Short
    case UInt16 => UShort
    case Decimal => ClrType.Decimal
    case Single => Float
    case Double => ClrType.Double
    case String => ClrType.String
    case DateTime => ClrType.DateTime
  }

  /**
   * MapClrTypeToDbType. Every supported type except bool maps to the DbType whose
   * native CLR type it is; bool maps to Int32; everything else fails.
   */
  function MapClrTypeToDbType(t: ClrType): (r: Result<DbType, Error>)
    ensures r.Ok? <==> Supported(Unwrap(t))
    ensures r.Ok? && Unwrap(t).Bool? ==> r.value == Int32
    ensures r.Ok? && !Unwrap(t).Bool? ==> NativeClrType(r.value) == Unwrap(t)
    ensures r.Err? ==> r.error == CannotMapToDbType(Unwrap(t))
  {
    var t := Unwrap(t);
    if t == Int then Ok(Int32)
    else if t == UInt then Ok(UInt32)
    else if t == Long then Ok(Int64)
    else if t == ULong then Ok(UInt64)
    else if t == Short then Ok(Int16)
    else if t == UShort then Ok(UInt16)
    else if t == ClrType.Decimal then Ok(DbType.Decimal)
    else if t == Float then Ok(Single)
    else if t == ClrType.Double then Ok(DbType.Double)
    else if t == ClrType.String then Ok(DbType.String)
    else if t == ClrType.DateTime then Ok(DbType.DateTime)
    else if t == Bool then Ok(Int32)
    else Err(CannotMapToDbType(t))
  }

  /** The naming token that belongs to each database type. */
  function DbTypeToken(d: DbType): string {
    match d
    case Int32 | UInt32 | Int64 | UInt64 | Int16 | UInt16 => "int"
    case DateTime => "dat"
    case Decimal | Single | Double => "num"
    case String => "str"
  }

  /**
   * MapClrTypeToDbTypeName. It accepts exactly the types MapClrTypeToDbType
   * accepts, and its token is the one that belongs to the DbType chosen there:
   * integers and bool give "int", DateTime "dat", decimal, float and double "num",
   * string "str".
   */
  function MapClrTypeToDbTypeName(t: ClrType): (r: Result<string, Error>)
    ensures r.Ok? <==> MapClrTypeToDbType(t).Ok?
    ensures r.Ok? ==> r.value == DbTypeToken(MapClrTypeToDbType(t).value)
    ensures r.Err? ==> r.error == CannotMapToDbTypeName(Unwrap(t))
  {
    var t := Unwrap(t);
    if t == Int || t == Long || t == Short || t == UInt || t == ULong || t == UShort then Ok("int")
    else if t == ClrType.DateTime then Ok("dat")
    else if t == ClrType.Decimal then Ok("num")
    else if t == ClrType.String then Ok("str")
    else if t == Float || t == ClrType.Double then Ok("num")
    else if t == Bool then Ok("int")
    else Err(CannotMapToDbTypeName(t))
  }

  /** The DbType table is onto: every database type is produced by its native CLR type. */
  lemma MapClrTypeToDbTypeOnto(d: DbType)
    ensures MapClrTypeToDbType(NativeClrType(d)) == Ok(d)
  {
  }

  /** An `out` parameter is mapped like the type it points at (both tables). */
  lemma ByRefMapsLikeElement(t: ClrType)
    requires !t.ByRef?
    ensures MapClrTypeToDbType(ByRef(t)) == MapClrTypeToDbType(t)
    ensures MapClrTypeToDbTypeName(ByRef(t)) == MapClrTypeToDbTypeName(t)
  {
  }

  /** Every token is three letters long. */
  lemma TokenLength(t: ClrType)
    requires MapClrTypeToDbTypeName(t).Ok?
    ensures |MapClrTypeToDbTypeName(t).value| == 3
  {
  }
}
