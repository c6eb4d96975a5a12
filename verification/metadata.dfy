/**
 * The method metadata the executer reads by reflection, as explicit descriptors:
 * a method's name, its declared parameters in order, and its custom attributes
 * (including those inherited from the methods it overrides, most-derived first).
 */
module Metadata {
  import opened Wrappers
  import opened Platform
  import opened EntityNames

  /** ParameterInfo: the name, the declared type and the IsOut flag. */
  datatype Parameter = Parameter(name: string, paramType: ClrType, isOut: bool)

  /** The custom attributes the executer looks for, and any other attribute. */
  datatype Attribute =
    | PackageName(entity: EntityName)
    | ProcedureName(entity: EntityName)
    | OmitParameterDirection
    | OmitParameterType
    | Unrelated(id: nat)

  /** The attribute classes, as the type argument of GetCustomAttribute<T>. */
  datatype AttributeKind =
    | PackageNameKind | ProcedureNameKind | OmitParameterDirectionKind | OmitParameterTypeKind

  predicate IsOfKind(a: Attribute, k: AttributeKind) {
    match k
    case PackageNameKind => a.PackageName?
    case ProcedureNameKind => a.ProcedureName?
    case OmitParameterDirectionKind => a.OmitParameterDirection?
    case OmitParameterTypeKind => a.OmitParameterType?
  }

  /** MethodBase: the method's own name, its parameters and its custom attributes. */
  datatype MethodSig = MethodSig(name: string, parameters: seq<Parameter>, attributes: seq<Attribute>)

  /**
   * Every entity-name attribute on the method was built by its validating
   * constructor (see NewPackageNameAttribute, NewProcedureNameAttribute).
   */
  predicate WellFormed(m: MethodSig) {
    forall a :: a in m.attributes && (a.PackageName? || a.ProcedureName?) ==> a.entity.Valid()
  }

  /** PackageNameAttribute's constructor: forwards to DbEntityNameAttribute's. */
  function NewPackageNameAttribute(packageName: Option<string>): (r: Result<Attribute, Error>)
    ensures r.Ok? <==> packageName.Some? && packageName.value != ""
    ensures r.Ok? ==> r.value.PackageName? && r.value.entity.Valid()
                      && r.value.entity.Value() == packageName.value
    ensures r.Err? ==> r.error == EmptyEntityName
  {
    match NewEntityName(packageName)
    case Ok(e) => Ok(PackageName(e))
    case Err(err) => Err(err)
  }

  /** ProcedureNameAttribute's constructor: forwards to DbEntityNameAttribute's. */
  function NewProcedureNameAttribute(procedureName: Option<string>): (r: Result<Attribute, Error>)
    ensures r.Ok? <==> procedureName.Some? && procedureName.value != ""
    ensures r.Ok? ==> r.value.ProcedureName? && r.value.entity.Valid()
                      && r.value.entity.Value() == procedureName.value
    ensures r.Err? ==> r.error == EmptyEntityName
  {
    match NewEntityName(procedureName)
    case Ok(e) => Ok(ProcedureName(e))
    case Err(err) => Err(err)
  }

  /** MethodBase.GetCustomAttributes(typeof(T), true): the attributes of one class, in order. */
  function AttributesOfKind(attrs: seq<Attribute>, k: AttributeKind): (r: seq<Attribute>)
    ensures forall a :: a in r <==> a in attrs && IsOfKind(a, k)
  {
    if |attrs| == 0 then []
    else (if IsOfKind(attrs[0], k) then [attrs[0]] else []) + AttributesOfKind(attrs[1..], k)
  }

  /**
   * GetCustomAttribute<T>: the first attribute of the class, or null. It is absent
   * exactly when the method has no attribute of that class; otherwise it is one of
   * the method's attributes and no earlier attribute is of that class.
   */
  function GetCustomAttribute(attrs: seq<Attribute>, k: AttributeKind): (r: Option<Attribute>)
    ensures r.None? <==> forall i :: 0 <= i < |attrs| ==> !IsOfKind(attrs[i], k)
    ensures r.Some? ==> IsOfKind(r.value, k)
    ensures r.Some? ==> exists i :: (0 <= i < |attrs| && attrs[i] == r.value
                                     && forall j :: 0 <= j < i ==> !IsOfKind(attrs[j], k))
  {
    var found := AttributesOfKind(attrs, k);
    FirstOfKind(attrs, k);
    if |found| > 0 then Some(found[0]) else None
  }

  /** The first element of the filtered list is the first match in the original one. */
  lemma {:induction false} FirstOfKind(attrs: seq<Attribute>, k: AttributeKind)
    ensures var found := AttributesOfKind(attrs, k);
      (|found| == 0 <==> forall i :: 0 <= i < |attrs| ==> !IsOfKind(attrs[i], k))
      && (|found| > 0 ==> exists i :: 0 <= i < |attrs| && attrs[i] == found[0]
                           && forall j :: 0 <= j < i ==> !IsOfKind(attrs[j], k))
  {
    if |attrs| > 0 {
      FirstOfKind(attrs[1..], k);
      if !IsOfKind(attrs[0], k) {
        var found := AttributesOfKind(attrs[1..], k);
        if |found| > 0 {
          var i :| 0 <= i < |attrs[1..]| && attrs[1..][i] == found[0]
                   && forall j :: 0 <= j < i ==> !IsOfKind(attrs[1..][j], k);
          assert attrs[i + 1] == found[0];
          assert forall j :: 0 <= j < i + 1 ==> !IsOfKind(attrs[j], k) by {
            forall j | 0 <= j < i + 1 ensures !IsOfKind(attrs[j], k) {
              if j > 0 { assert attrs[j] == attrs[1..][j - 1]; }
            }
          }
        } else {
          forall i | 0 <= i < |attrs| ensures !IsOfKind(attrs[i], k) {
            if i > 0 { assert attrs[i] == attrs[1..][i - 1]; }
          }
        }
      }
    }
  }

  /** Whether the method carries OmitParameterDirectionAttribute. */
  function OmitDirection(m: MethodSig): bool {
    GetCustomAttribute(m.attributes, OmitParameterDirectionKind).Some?
  }

  /** Whether the method carries OmitParameterTypeAttribute. */
  function OmitType(m: MethodSig): bool {
    GetCustomAttribute(m.attributes, OmitParameterTypeKind).Some?
  }

  /** Each omit flag is set exactly when the method carries an attribute of that class. */
  lemma OmitFlagsFollowAttributes(m: MethodSig)
    ensures OmitDirection(m) <==> exists i :: 0 <= i < |m.attributes| && m.attributes[i].OmitParameterDirection?
    ensures OmitType(m) <==> exists i :: 0 <= i < |m.attributes| && m.attributes[i].OmitParameterType?
  {
  }
}
