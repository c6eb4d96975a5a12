/**
 * DbEntityNameAttribute: the base of the PackageName and ProcedureName attributes.
 * Its constructor refuses a null or empty name and stores it in a field that is
 * never assigned again, so an instance is a value with a validity predicate.
 */
module EntityNames {
  import opened Wrappers
  import opened Platform

  datatype EntityName = EntityName(value: string) {

    /** The invariant the constructor establishes. */
    predicate Valid() {
      |value| > 0
    }

    /** The read-only `Value` property. */
    function Value(): string {
      value
    }
  }

  /**
   * The validating constructor: `value` is None for a null string. A successful
   * construction yields a valid instance whose `Value` is exactly the argument.
   */
  function NewEntityName(value: Option<string>): (r: Result<EntityName, Error>)
    ensures r.Ok? <==> value.Some? && value.value != ""
    ensures r.Ok? ==> r.value.Valid() && r.value.Value() == value.value
    ensures r.Err? ==> r.error == EmptyEntityName
  {
    if value.None? || value.value == "" then Err(EmptyEntityName)
    else Ok(EntityName(value.value))
  }

  /** Two successful constructions agree exactly when their arguments do. */
  lemma NewEntityNameInjective(a: Option<string>, b: Option<string>)
    requires NewEntityName(a).Ok? && NewEntityName(b).Ok?
    ensures NewEntityName(a) == NewEntityName(b) <==> a == b
  {
  }
}
