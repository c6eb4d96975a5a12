/**
 * GetFullObjectName: the stored procedure's qualified name, "package.procedure",
 * built from the method's PackageName attribute (required) and its
 * ProcedureName attribute (optional; the method's own name otherwise).
 */
module ProcedureNames {
  import opened Wrappers
  import opened Platform
  import opened EntityNames
  import opened Metadata

  /**
   * The procedure part: the value of the first ProcedureName attribute, or the
   * method's own name when it has none.
   */
  function ProcedurePart(m: MethodSig): (r: string)
    ensures (forall i :: 0 <= i < |m.attributes| ==> !m.attributes[i].ProcedureName?) ==> r == m.name
    ensures !(forall i :: 0 <= i < |m.attributes| ==> !m.attributes[i].ProcedureName?) ==>
              exists i :: (0 <= i < |m.attributes| && m.attributes[i].ProcedureName? && r == m.attributes[i].entity.Value()
                           && forall j :: 0 <= j < i ==> !m.attributes[j].ProcedureName?)
  {
    match GetCustomAttribute(m.attributes, ProcedureNameKind)
    case None => m.name
    case Some(a) => a.entity.Value()
  }

  /**
   * GetFullObjectName. It fails exactly when the method has no PackageName
   * attribute; otherwise the result starts with the first package attribute's
   * value, followed by a dot and the procedure part.
   */
  function GetFullObjectName(m: MethodSig): (r: Result<string, Error>)
    ensures r.Err? <==> forall i :: 0 <= i < |m.attributes| ==> !m.attributes[i].PackageName?
    ensures r.Err? ==> r.error == MissingPackageName
    ensures r.Ok? ==> exists i :: (0 <= i < |m.attributes| && m.attributes[i].PackageName?
                                   && r.value == m.attributes[i].entity.Value() + "." + ProcedurePart(m))
  {
    var packageNameAttr := GetCustomAttribute(m.attributes, PackageNameKind);
    var procNameAttr := GetCustomAttribute(m.attributes, ProcedureNameKind);
    if packageNameAttr.None? then Err(MissingPackageName)
    else
      var packageName := packageNameAttr.value.entity.Value();
      var procedureName := if procNameAttr.None? then m.name else procNameAttr.value.entity.Value();
      Ok(packageName + "." + procedureName)
  }

  /** Splits a qualified name at its first dot. */
  function SplitAtFirstDot(s: string): (r: Option<(string, string)>)
    ensures r.Some? ==> s == r.value.0 + "." + r.value.1 && '.' !in r.value.0
    ensures r.None? <==> '.' !in s
  {
    if |s| == 0 then None
    else if s[0] == '.' then Some(([], s[1..]))
    else match SplitAtFirstDot(s[1..])
      case None => None
      case Some((left, right)) => Some(([s[0]] + left, right))
  }

  /**
   * On a well-formed method the package part is never empty, and the procedure
   * part is the override when there is one (then also non-empty), else the
   * method's own name. When the package name has no dot, splitting the result
   * at its first dot gives back the two parts.
   */
  lemma {:induction false} FullObjectNameParts(m: MethodSig)
    requires WellFormed(m)
    requires GetFullObjectName(m).Ok?
    ensures var pkg := GetCustomAttribute(m.attributes, PackageNameKind).value.entity.Value();
      && |pkg| > 0
      && GetFullObjectName(m).value == pkg + "." + ProcedurePart(m)
      && ('.' !in pkg ==> SplitAtFirstDot(GetFullObjectName(m).value) == Some((pkg, ProcedurePart(m))))
    ensures GetCustomAttribute(m.attributes, ProcedureNameKind).Some? ==> |ProcedurePart(m)| > 0
    ensures GetCustomAttribute(m.attributes, ProcedureNameKind).None? ==> ProcedurePart(m) == m.name
  {
    var pkg := GetCustomAttribute(m.attributes, PackageNameKind).value.entity.Value();
    if '.' !in pkg {
      SplitUnique(pkg, ProcedurePart(m));
    }
  }

  /** Splitting `left + "." + right` at the first dot finds that dot when `left` has none. */
  lemma {:induction false} SplitUnique(left: string, right: string)
    requires '.' !in left
    ensures SplitAtFirstDot(left + "." + right) == Some((left, right))
  {
    if |left| == 0 {
      assert left + "." + right == ['.'] + right;
    } else {
      var s := left + "." + right;
      assert s[0] == left[0] && s[0] != '.';
      assert s[1..] == left[1..] + "." + right;
      SplitUnique(left[1..], right);
      assert [left[0]] + left[1..] == left;
    }
  }

  /** The three resolutions a call can meet: default name, override, missing package. */
  lemma ResolutionExamples()
    ensures GetFullObjectName(MethodSig("GetStatus", [], [PackageName(EntityName("ORDERS"))]))
            == Ok("ORDERS.GetStatus")
    ensures GetFullObjectName(MethodSig("GetStatus", [],
              [ProcedureName(EntityName("Fetch")), PackageName(EntityName("ORDERS"))]))
            == Ok("ORDERS.Fetch")
    ensures GetFullObjectName(MethodSig("GetStatus", [], [OmitParameterType])) == Err(MissingPackageName)
  {
    var pkg := PackageName(EntityName("ORDERS"));
    var a1 := [pkg];
    assert AttributesOfKind(a1[1..], PackageNameKind) == [];
    assert AttributesOfKind(a1, PackageNameKind) == [pkg];
    assert AttributesOfKind(a1, ProcedureNameKind) == [];
    assert "ORDERS" + "." + "GetStatus" == "ORDERS.GetStatus";
    var proc := ProcedureName(EntityName("Fetch"));
    var a2 := [proc, pkg];
    assert a2[1..] == a1;
    assert AttributesOfKind(a2, PackageNameKind) == [pkg];
    assert AttributesOfKind(a2, ProcedureNameKind) == [proc];
    assert "ORDERS" + "." + "Fetch" == "ORDERS.Fetch";
  }
}
