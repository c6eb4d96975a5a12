# DbAutoExecuter, modelled in Dafny

DbAutoExecuter calls a stored procedure that is described by a C# method's
metadata. From a `MethodBase` it does three things:

- It resolves the procedure's qualified name, `package.procedure`. The name comes
  from the method's `PackageName` attribute, plus its `ProcedureName` attribute or
  else the method's own name.
- It turns the declared parameters into `IDataParameter`s for the `IDatabase`
  collaborator. Each name has an `IN_`/`OUT_` prefix, a three-letter type token
  and the capitalized C# name. Transaction parameters are skipped. Bool inputs are
  rewritten to 1 or 0 in the caller's argument array.
- After the call, `ExecuteNonQuery` reads the output parameters back. An Int32 is
  turned back into a bool where the declared `out` parameter at the same position
  is a bool.

Reflection is replaced by explicit descriptors. `MethodSig` holds the name, the
parameters (name, `ClrType`, `isOut`) and the custom attributes, in order. The
database is represented in three ways:

- by the engine it runs (the SQL Server scale rule depends on it);
- by the `Invocation` the executer makes on it;
- by the values it writes into the output parameters.

Modules, one per concern of `DbAutoExecuter/DbAutoExecuter.cs` and
`DbAutoExecuter/DbEntityNameAttribute.cs`:

- `Platform`: the CLR types, boxed values, `DbType`, `ParameterDirection` and exceptions.
- `EntityNames`: `DbEntityNameAttribute`, a value with a validity predicate.
- `Metadata`: method descriptors, attributes and `GetCustomAttribute`.
- `TypeMapping`: the two type tables.
- `Naming`: parameter-name generation and its inverse.
- `ProcedureNames`: `GetFullObjectName`.
- `Binder`: `GetDbParameters`. It is an imperative loop over an `array` of
  arguments, proved against the left fold `BindPrefix`.
- `BinderLemmas`: the closed form of that fold and its consequences.
- `Executer`: the three entry points, the overload choice, `AsBool`, and the
  output-marshaling loop `MarshalOutputs`.

The code is followed where its documentation says otherwise:

- The doc comment of the `args` parameter (`DbAutoExecuter.cs:70-74`) says not to
  pass output arguments. But `GetDbParameters` advances its argument cursor for
  every non-transaction parameter, outputs included (`DbAutoExecuter.cs:314-316`).
  So an input after an `out` parameter reads the argument one position further on.
  `BinderLemmas.InputsOnlyArgumentsFallShort` and
  `BinderLemmas.ArgumentPositionsIncludeOutputs` show both sides of this.
- An output parameter with no declared `out` parameter at its position would be
  returned unchanged. The guard at `DbAutoExecuter.cs:109` allows this, and it is
  not an error. `Executer.NoSurplusOutputs` shows that this never arises for
  parameters bound from the same method.

## Model

| member | source | states |
|---|---|---|
| EntityNames.NewEntityName | DbAutoExecuter/DbEntityNameAttribute.cs:19-27 | construction succeeds iff the value is non-null and non-empty, and then yields a valid name whose `Value` is exactly the argument; otherwise it throws the ArgumentException |
| EntityNames.NewEntityNameInjective | DbAutoExecuter/DbEntityNameAttribute.cs:26-35 | `Value` is the stored argument and nothing else, so two constructed names are equal iff their arguments are |
| Metadata.NewPackageNameAttribute | DbAutoExecuter/PackageNameAttribute.cs:18 | forwards to the entity-name constructor: same success condition, a PackageName attribute whose non-empty `Value` is the argument |
| Metadata.NewProcedureNameAttribute | DbAutoExecuter/ProcedureNameAttribute.cs:18 | the same for ProcedureName |
| Metadata.AttributesOfKind | DbAutoExecuter/DbAutoExecuter.cs:520 | the attributes of one class are exactly the method's attributes of that class |
| Metadata.OmitFlagsFollowAttributes | DbAutoExecuter/DbAutoExecuter.cs:247-248 | `omitDirection` (`omitType`) is set exactly when the method carries an OmitParameterDirection (OmitParameterType) attribute |
| Metadata.GetCustomAttribute | DbAutoExecuter/DbAutoExecuter.cs:518-528 | null iff the method has no attribute of the class; otherwise one of its attributes of that class, with no earlier attribute of that class |
| Platform.ElementType | DbAutoExecuter/DbAutoExecuter.cs:110 | `GetElementType` yields a type exactly for by-ref types, and that type is the one pointed at |
| Platform.UnboxBool | DbAutoExecuter/DbAutoExecuter.cs:296 | the `(bool)` cast succeeds exactly on a boxed bool; null throws NullReferenceException, any other object InvalidCastException |
| TypeMapping.MapClrTypeToDbType | DbAutoExecuter/DbAutoExecuter.cs:356-417 | after unwrapping a by-ref type, it succeeds exactly on the eleven primitive types and bool; bool gives Int32, every other accepted type the DbType whose native CLR type it is; otherwise it throws naming the unwrapped type |
| TypeMapping.MapClrTypeToDbTypeOnto | DbAutoExecuter/DbAutoExecuter.cs:364-406 | every DbType in the table is produced, by its native CLR type |
| TypeMapping.ByRefMapsLikeElement | DbAutoExecuter/DbAutoExecuter.cs:358-362 | an `out` parameter's type maps in both tables like the type it points at |
| TypeMapping.MapClrTypeToDbTypeName | DbAutoExecuter/DbAutoExecuter.cs:431-474 | it accepts exactly the types the DbType table accepts, and the token belongs to the DbType chosen there: integers and bool "int", DateTime "dat", decimal/float/double "num", string "str" |
| TypeMapping.TokenLength | DbAutoExecuter/DbAutoExecuter.cs:31-51 | every type token is three characters long |
| Naming.ToUpper | DbAutoExecuter/DbAutoExecuter.cs:282 | a lower-case ASCII letter becomes its upper-case letter and every other character is left as it is |
| Naming.DirectionPrefix | DbAutoExecuter/DbAutoExecuter.cs:267-270 | no prefix when directions are omitted; otherwise "OUT_" for an `out` parameter and "IN_" for an input |
| Naming.Capitalize | DbAutoExecuter/DbAutoExecuter.cs:282 | the name keeps its length and tail, and its first character is upper-cased |
| Naming.ParameterName | DbAutoExecuter/DbAutoExecuter.cs:264-289 | name generation fails iff the type token is wanted and either the type has no token or the name is empty; the error is the mapping exception, else IndexOutOfRange |
| Naming.SplitDirectionInverts | DbAutoExecuter/DbAutoExecuter.cs:267-270 | the "IN_"/"OUT_" prefix reads back as the parameter's direction, and the rest of the name is left as it was |
| Naming.SplitParameterNameInverts | DbAutoExecuter/DbAutoExecuter.cs:264-289 | every generated name splits back into its direction (unless omitted), its type token (unless omitted) and the C# name, capitalized exactly when the token is present |
| Naming.TypedNamingExample | DbAutoExecuter/DbAutoExecuter.cs:272-283 | an input string `name` is "IN_strName" |
| Naming.TypedUndirectedNamingExample | DbAutoExecuter/DbAutoExecuter.cs:272-283 | with directions omitted it is "strName" |
| Naming.UntypedNamingExamples | DbAutoExecuter/DbAutoExecuter.cs:284-289 | with types omitted it is "IN_name", or "name" with directions omitted too |
| ProcedureNames.ProcedurePart | DbAutoExecuter/DbAutoExecuter.cs:503-510 | the method's own name when it has no ProcedureName attribute; otherwise the value of its first ProcedureName attribute |
| ProcedureNames.GetFullObjectName | DbAutoExecuter/DbAutoExecuter.cs:488-513 | it throws iff no PackageName attribute exists; otherwise it is a package attribute's value, a dot, and the procedure part |
| ProcedureNames.FullObjectNameParts | DbAutoExecuter/DbAutoExecuter.cs:488-513 | on well-formed metadata the package part is the first package attribute's non-empty value; the procedure part is the override (non-empty) or the method name; with a dot-free package, splitting at the first dot recovers both parts |
| ProcedureNames.ResolutionExamples | DbAutoExecuter/DbAutoExecuter.cs:488-513 | "ORDERS.GetStatus" by default, "ORDERS.Fetch" with an override, and the exception without a package |
| Binder.CreateParameter | DbAutoExecuter/DbAutoExecuter.cs:299-303 | the collaborator's factory returns a parameter with exactly the name, DbType, value and direction it was given, and the default scale |
| Binder.BindParameter | DbAutoExecuter/DbAutoExecuter.cs:264-316 | one non-transaction parameter binds iff its name and type map and, for an input, its argument exists (and is a bool for a bool input); then it has the generated name, the mapped DbType, the direction from `IsOut`, value `args[k]` (input) or null (output), scale 6 iff output Decimal on SQL Server; and only `args[k]` of a bool input changes, to 1 or 0. When it cannot bind, the exception is that of the first check to fail (`BindError`): the type token, the empty name, the missing bool argument, the unboxing, the DbType mapping, the missing input argument |
| Binder.StepShape | DbAutoExecuter/DbAutoExecuter.cs:251-317 | one loop iteration: after an exception, and for a transaction parameter, nothing changes; otherwise at most one bound parameter is appended, the cursor advances with it, and the number of arguments is kept |
| Binder.BindPrefixShape | DbAutoExecuter/DbAutoExecuter.cs:241-317 | after any number of iterations there are as many arguments as were passed and, while running, the cursor equals the number of bound parameters, at most one per declared parameter |
| Binder.SkipsTransaction | DbAutoExecuter/DbAutoExecuter.cs:251-262 | a transaction parameter leaves the state unchanged |
| Binder.StoppedPersists | DbAutoExecuter/DbAutoExecuter.cs:251-318 | once an exception is thrown, later parameters change nothing |
| Binder.ThrowsAt | DbAutoExecuter/DbAutoExecuter.cs:264-316 | a parameter that throws ends the whole binding with that exception and the arguments as they were then |
| Binder.BindsNext | DbAutoExecuter/DbAutoExecuter.cs:314-316 | a parameter that binds appends one bound parameter and advances the cursor by one |
| Binder.BindParameterInPlace | DbAutoExecuter/DbAutoExecuter.cs:264-316 | the in-place pass over one parameter returns what BindParameter describes and leaves the array as BindParameter's arguments; on an exception the array is unchanged |
| Binder.BindNextInPlace | DbAutoExecuter/DbAutoExecuter.cs:264-316 | one loop pass either extends the running state by the parameter's binding or stops the binder with the array as it is |
| Binder.GetDbParameters | DbAutoExecuter/DbAutoExecuter.cs:241-320 | the returned list (or the exception) and the argument array's new contents are those of the fold `Bind` over the declared parameters |
| BinderLemmas.BindPrefixCharacterized | DbAutoExecuter/DbAutoExecuter.cs:251-316 | after any prefix of the parameters, the state is the closed form: running iff each bindable parameter binds at its own position, with one bound parameter per bindable parameter and the arguments substituted |
| BinderLemmas.FirstUnbindableIsLeast | DbAutoExecuter/DbAutoExecuter.cs:251-316 | `FirstUnbindable` is the least position among the bindable parameters that cannot bind with the cursor there |
| BinderLemmas.BindPrefixStopped | DbAutoExecuter/DbAutoExecuter.cs:251-316 | after any prefix, a stopped binder stopped at the first unbindable parameter, with the exception it throws on the original arguments, and only the arguments before it substituted |
| BinderLemmas.BindCharacterized | DbAutoExecuter/DbAutoExecuter.cs:241-320 | GetDbParameters succeeds iff every non-transaction parameter binds with the cursor at its position among them; then the k-th bound parameter is that parameter's binding (output positions included); every argument is unchanged or its bool input's 1/0 |
| BinderLemmas.BindStopped | DbAutoExecuter/DbAutoExecuter.cs:241-320 | when GetDbParameters throws, it throws at the least position k0 whose bindable parameter cannot bind (all before it can), the exception is that parameter's `BindError` on the arguments as passed, and argument j is substituted for j < k0 and untouched from k0 on |
| BinderLemmas.StopsAfterSubstitution | DbAutoExecuter/DbAutoExecuter.cs:294-297 | for (bool flag, byte[] blob) with [true, x], the bool is rewritten before the array's type token fails, so the exception leaves [1, x] |
| BinderLemmas.RebindingSameArguments | DbAutoExecuter/DbAutoExecuter.cs:294-297 | the caller's array comes back unchanged iff no bool input was bound, and a second call with the same array succeeds iff it came back unchanged |
| BinderLemmas.InputsOnlyArgumentsFallShort | DbAutoExecuter/DbAutoExecuter.cs:299-316 | for (string name, transaction, out int id, int count), passing only the two inputs makes `count` read past the end and throw |
| BinderLemmas.ArgumentPositionsIncludeOutputs | DbAutoExecuter/DbAutoExecuter.cs:299-316 | with an argument in the output's position, `name` takes the first argument, `id` is an output with a null value, `count` takes the third |
| Executer.AsBool | DbAutoExecuter/DbAutoExecuter.cs:334-342 | it succeeds exactly on a boxed Int32, giving false for 0 and true otherwise; anything else throws |
| Executer.AsBoolInvertsBoolToInt | DbAutoExecuter/DbAutoExecuter.cs:334-342 | AsBool reverses the binder's 1/0 substitution: every bool makes the round trip |
| Executer.ChooseOverload | DbAutoExecuter/DbAutoExecuter.cs:88-95 | the transactional overload is chosen iff a transaction is supplied, and it carries that transaction |
| Executer.DeclaredOutputs | DbAutoExecuter/DbAutoExecuter.cs:100 | every kept parameter is an `out` parameter, and there are no more of them than declared parameters |
| Executer.DeclaredOutputsAppend | DbAutoExecuter/DbAutoExecuter.cs:100 | the filter keeps declaration order: one more declared parameter appends itself exactly when it is `out` |
| Executer.DeclaredOutputsFilter | DbAutoExecuter/DbAutoExecuter.cs:100 | a parameter is kept iff it is one of the declared parameters and `IsOut` |
| Executer.OutputParameters | DbAutoExecuter/DbAutoExecuter.cs:104 | every kept bound parameter has direction Output, and there are no more of them than bound parameters |
| Executer.OutputParametersAppend | DbAutoExecuter/DbAutoExecuter.cs:104 | the filter keeps bound order: one more bound parameter appends itself exactly when its direction is Output |
| Executer.OutputParametersFilter | DbAutoExecuter/DbAutoExecuter.cs:104 | a bound parameter is kept iff it is one of the bound parameters and its direction is Output |
| Executer.Executed | DbAutoExecuter/IDatabase.cs:23-24 | executing changes only the values of output parameters, never names, directions or inputs |
| Executer.MarshalOutputs | DbAutoExecuter/DbAutoExecuter.cs:97-125 | the returned list has one entry per output parameter, in order: the value passed through AsBool where the declared `out` parameter at that position is a bool, the raw value otherwise; or the first AsBool exception |
| Executer.MarshaledAsUnique | DbAutoExecuter/DbAutoExecuter.cs:97-125 | that description admits exactly one outcome for given outputs |
| Executer.MarshaledOutputs | DbAutoExecuter/DbAutoExecuter.cs:106-121 | marshaling throws iff some bool position did not come back as an Int32; otherwise each bool position holds `value != 0` and every other position its raw value |
| Executer.BoolOutputsRoundTrip | DbAutoExecuter/DbAutoExecuter.cs:106-121 | for any mix of outputs: where each bool position comes back as the binder's 1/0 for a bool b, the returned list holds b there, and every other position holds its raw value |
| Executer.NoSurplusOutputs | DbAutoExecuter/DbAutoExecuter.cs:100-110 | the binder never produces more output parameters than the method declares `out` parameters, and exactly as many when no `out` parameter is a transaction, so the bound check always holds |
| Executer.Prepare | DbAutoExecuter/DbAutoExecuter.cs:84-95 | the call is made iff the name resolves and binding succeeds; a missing package is reported before any binding exception; the call carries the resolved name, the bound parameters, and the transactional overload with the supplied transaction, or the plain overload when there is none |
| Executer.PrepareCall | DbAutoExecuter/DbAutoExecuter.cs:84-86 | resolving then binding yields Prepare's outcome; the arguments are untouched when the name cannot be resolved |
| Executer.ExecuteNonQuery | DbAutoExecuter/DbAutoExecuter.cs:80-134 | on failure nothing is called and the exception is returned; otherwise the call is Prepare's, and the result is the marshaled output values after execution |
| Executer.ExecuteDataSet | DbAutoExecuter/DbAutoExecuter.cs:158-176 | the DataSet call is Prepare's, with the same overload choice and argument handling |
| Executer.ExecuteDataReader | DbAutoExecuter/DbAutoExecuter.cs:200-218 | the DataReader call is Prepare's, with the same overload choice and argument handling |
| Executer.MarshalingExamples | DbAutoExecuter/DbAutoExecuter.cs:106-121 | for (out bool found, out int count), returned 5 and 0 become true and 0, and a null in the bool position throws |

## Left out

- Reflection (`GetParameters`, `GetCustomAttributes`, `FindInterfaces`) is replaced by explicit descriptors. Whether a type implements IDbTransaction is a flag on the descriptor.
- Inherited attributes appear in the descriptor's attribute list; attribute inheritance itself is not modelled.
- `OmitParameterDirectionAttribute.cs` is not part of this model. The attribute is modelled only by its presence on a method, like the marker attribute `OmitParameterTypeAttribute`.
- Database execution is left out: connections, commands, transactions, the contents of the DataSet and the IDataReader, and `ExecuteScalar`, which the executer never calls. `ExecuteDataSet` and `ExecuteDataReader` return the call they make instead of the collaborator's result.
- The SQL Server scale rule is modelled as a `scale` field and an engine flag. The cast to `SqlParameter` is not modelled.
- Naming.ToUpper: handles ASCII letters only. Other characters are left unchanged, whereas `char.ToUpper` follows the current culture.
- Binder.GetDbParameters: the argument array is never null. A null `args` makes the C# throw NullReferenceException at the first input parameter (`DbAutoExecuter.cs:296`, `302`); the model has no null array, so that exception is not produced.
- Float and double values are not modelled. Boxed values other than bool and Int32 are opaque objects.
- The `IndexOutOfRangeException` handler in `ExecuteNonQuery` (`DbAutoExecuter.cs:128-131`) is not modelled. The guard at line 109 keeps the loop from indexing past the declared outputs, and no call in the loop can raise that exception.
