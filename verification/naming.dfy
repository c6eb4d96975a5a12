/**
 * The naming convention of the stored procedures' parameters: an optional
 * direction prefix ("IN_" or "OUT_"), an optional type token ("int", "str", ...)
 * and the C# parameter name, whose first letter is upper-cased only when the
 * type token is present ("IN_strCustomerName", "IN_customerName").
 */
module Naming {
  import opened Wrappers
  import opened Platform
  import opened TypeMapping
  import opened Metadata

  const IN_DIRECTION: string := "IN_"
  const OUT_DIRECTION: string := "OUT_"

  /** char.ToUpper, for the ASCII letters. */
  function ToUpper(c: char): (u: char)
    ensures 'a' <= c <= 'z' ==> 'A' <= u <= 'Z' && u as int - 'A' as int == c as int - 'a' as int
    ensures !('a' <= c <= 'z') ==> u == c
  {
    if 'a' <= c <= 'z' then (c as int - 'a' as int + 'A' as int) as char else c
  }

  /** The name with its first character upper-cased. */
  function Capitalize(name: string): (r: string)
    requires |name| > 0
    ensures |r| == |name| && r[0] == ToUpper(name[0]) && r[1..] == name[1..]
  {
    [ToUpper(name[0])] + name[1..]
  }

  /** The direction prefix, or nothing when directions are omitted. */
  function DirectionPrefix(isOut: bool, omitDirection: bool): (r: string)
    ensures omitDirection ==> r == ""
    ensures !omitDirection && isOut ==> r == OUT_DIRECTION
    ensures !omitDirection && !isOut ==> r == IN_DIRECTION
  {
    if omitDirection then "" else if isOut then OUT_DIRECTION else IN_DIRECTION
  }

  /**
   * The parameter name built in GetDbParameters. Only the type-token branch can
   * fail: on an unmapped type, or (Name[0]) on an empty name.
   */
  function ParameterName(q: Parameter, omitDirection: bool, omitType: bool): (r: Result<string, Error>)
    ensures r.Err? <==> !omitType && (MapClrTypeToDbTypeName(q.paramType).Err? || |q.name| == 0)
    ensures r.Err? ==> r.error == (if MapClrTypeToDbTypeName(q.paramType).Err?
                                   then MapClrTypeToDbTypeName(q.paramType).error
                                   else IndexOutOfRange)
  {
    var parameterName := DirectionPrefix(q.isOut, omitDirection);
    if omitType then Ok(parameterName + q.name)
    else match MapClrTypeToDbTypeName(q.paramType)
      case Err(e) => Err(e)
      case Ok(token) =>
        if |q.name| == 0 then Err(IndexOutOfRange)
        else Ok(parameterName + token + Capitalize(q.name))
  }

  /** The pieces a generated name is made of. */
  datatype NameParts = NameParts(direction: Option<Direction>, token: Option<string>, rest: string)

  /** Reads the direction prefix off a generated name, unless directions are omitted. */
  function SplitDirection(s: string, omitDirection: bool): Option<(Option<Direction>, string)> {
    if omitDirection then Some((None, s))
    else if |s| >= 3 && s[..3] == IN_DIRECTION then Some((Some(Input), s[3..]))
    else if |s| >= 4 && s[..4] == OUT_DIRECTION then Some((Some(Output), s[4..]))
    else None
  }

  /**
   * Reads a generated name back, knowing which parts the method omits: the
   * direction from the prefix, then a three-letter token, then the rest.
   */
  function SplitParameterName(s: string, omitDirection: bool, omitType: bool): Option<NameParts> {
    match SplitDirection(s, omitDirection)
    case None => None
    case Some((direction, s')) =>
      if omitType then Some(NameParts(direction, None, s'))
      else if |s'| < 3 then None
      else Some(NameParts(direction, Some(s'[..3]), s'[3..]))
  }

  /** The prefix of a name built with directions is read back as the direction it stands for. */
  lemma SplitDirectionInverts(isOut: bool, omitDirection: bool, tail: string)
    ensures SplitDirection(DirectionPrefix(isOut, omitDirection) + tail, omitDirection)
            == Some((if omitDirection then None else Some(if isOut then Output else Input), tail))
  {
    var s := DirectionPrefix(isOut, omitDirection) + tail;
    if omitDirection {
      assert s == tail;
    } else {
      if isOut {
        assert s[..4] == OUT_DIRECTION && s[4..] == tail;
        assert s[..3] != IN_DIRECTION by { assert s[..3][0] == 'O' && IN_DIRECTION[0] == 'I'; }
      } else {
        assert s[..3] == IN_DIRECTION && s[3..] == tail;
      }
    }
  }

  /**
   * Round trip: a generated name splits back into the parameter's direction
   * (unless omitted), its type token (unless omitted), and its name, which is
   * capitalized exactly when the token is present.
   */
  lemma SplitParameterNameInverts(q: Parameter, omitDirection: bool, omitType: bool)
    requires ParameterName(q, omitDirection, omitType).Ok?
    ensures SplitParameterName(ParameterName(q, omitDirection, omitType).value, omitDirection, omitType)
            == Some(NameParts(
                 if omitDirection then None else Some(if q.isOut then Output else Input),
                 if omitType then None else Some(MapClrTypeToDbTypeName(q.paramType).value),
                 if omitType then q.name else Capitalize(q.name)))
  {
    var prefix := DirectionPrefix(q.isOut, omitDirection);
    var tail := if omitType then q.name else MapClrTypeToDbTypeName(q.paramType).value + Capitalize(q.name);
    assert ParameterName(q, omitDirection, omitType).value == prefix + tail;
    SplitDirectionInverts(q.isOut, omitDirection, tail);
    if !omitType {
      TokenLength(q.paramType);
      var token := MapClrTypeToDbTypeName(q.paramType).value;
      assert tail[..3] == token && tail[3..] == Capitalize(q.name);
    }
  }

  /** An input string parameter with both the direction and the type token. */
  lemma TypedNamingExample()
    ensures ParameterName(Parameter("name", ClrType.String, false), false, false) == Ok("IN_strName")
  {
    var q := Parameter("name", ClrType.String, false);
    var cap := Capitalize(q.name);
    assert cap == "Name" by { assert cap[0] == 'N' && cap[1..] == "ame"; }
    var full := IN_DIRECTION + "str" + cap;
    assert ParameterName(q, false, false) == Ok(full);
    assert |full| == 10;
    assert full == "IN_strName";
  }

  /** The same parameter when the method omits directions: the type token, then the capitalized name. */
  lemma TypedUndirectedNamingExample()
    ensures ParameterName(Parameter("name", ClrType.String, false), true, false) == Ok("strName")
  {
    var q := Parameter("name", ClrType.String, false);
    var cap := Capitalize(q.name);
    assert cap == "Name" by { assert cap[0] == 'N' && cap[1..] == "ame"; }
    var short := "" + "str" + cap;
    assert ParameterName(q, true, false) == Ok(short);
    assert |short| == 7;
    assert short == "strName";
  }

  /** The same parameter when the method omits type tokens: the name is not capitalized. */
  lemma UntypedNamingExamples()
    ensures ParameterName(Parameter("name", ClrType.String, false), false, true) == Ok("IN_name")
    ensures ParameterName(Parameter("name", ClrType.String, false), true, true) == Ok("name")
  {
    var q := Parameter("name", ClrType.String, false);
    assert ParameterName(q, false, true) == Ok(IN_DIRECTION + q.name);
    assert IN_DIRECTION + q.name == "IN_name";
    assert ParameterName(q, true, true) == Ok("" + q.name);
    assert "" + q.name == "name";
  }
}
