/**
 * The parts of the .NET platform that the executer works with: the CLR types a
 * method parameter can be declared with, boxed argument values, System.Data's
 * DbType and ParameterDirection, and the exceptions the executer can throw.
 */
module Platform {
  import opened Wrappers

  /** A boxed System.Int32. */
  newtype int32 = x: int | -0x8000_0000 <= x < 0x8000_0000

  /**
   * A declared parameter type. The twelve primitive types are named after their C#
   * keywords (`typeof(int)`, `typeof(uint)`, ...). `DbTransaction` is the interface
   * IDbTransaction itself; `Other` is any further type, together with whether it
   * implements IDbTransaction. `ByRef` is the type of a `ref`/`out` parameter.
   */
  datatype ClrType =
    | Int | UInt | Long | ULong | Short | UShort
    | Decimal | Float | Double | String | DateTime | Bool
    | DbTransaction
    | Other(typeName: string, implementsDbTransaction: bool)
    | ByRef(element: ClrType)

  /** Type.GetElementType: the pointed-at type of a by-ref type, null for the others modelled. */
  function ElementType(t: ClrType): (r: Option<ClrType>)
    ensures r.Some? <==> t.ByRef?
    ensures r.Some? ==> r.value == t.element
  {
    if t.ByRef? then Some(t.element) else None
  }

  /** System.Data.DbType, restricted to the members the executer produces. */
  datatype DbType =
    | Int32 | UInt32 | Int64 | UInt64 | Int16 | UInt16
    | Decimal | Single | Double | String | DateTime

  /** System.Data.ParameterDirection, restricted to the members the executer produces. */
  datatype Direction = Input | Output

  /**
   * An object reference as the executer sees it: null, a boxed bool, a boxed Int32,
   * or any other object (identified only by an opaque number).
   */
  datatype Value = Null | BoxedBool(b: bool) | BoxedInt(i: int32) | Boxed(id: nat)

  /** The exceptions the executer can raise. */
  datatype Error =
    | CannotMapToDbType(t: ClrType)           // InvalidOperationException from MapClrTypeToDbType
    | CannotMapToDbTypeName(t: ClrType)       // InvalidOperationException from MapClrTypeToDbTypeName
    | MissingPackageName                      // InvalidOperationException from GetFullObjectName
    | ReturnedBooleanNotInt32(v: Value)       // InvalidOperationException from AsBool
    | EmptyEntityName                         // ArgumentException from DbEntityNameAttribute
    | IndexOutOfRange                         // IndexOutOfRangeException (args[i], Name[0])
    | InvalidCast(v: Value)                   // InvalidCastException from unboxing to bool
    | NullReference                           // NullReferenceException from unboxing null

  /** The C# unboxing cast `(bool)obj`. */
  function UnboxBool(v: Value): (r: Result<bool, Error>)
    ensures r.Ok? <==> v.BoxedBool?
    ensures r.Ok? ==> r.value == v.b
    ensures r.Err? ==> r.error == (if v.Null? then NullReference else InvalidCast(v))
  {
    match v
    case BoxedBool(b) => Ok(b)
    case Null => Err(NullReference)
    case _ => Err(InvalidCast(v))
  }
}
