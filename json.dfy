/**
 * JSON values as the client sees them once Newtonsoft.Json has parsed a response body,
 * the few readings of them the client performs (`ToString()`, `Value<bool>`,
 * `Value<double>`), and the mutable object the parser hands back.
 */
module Json {
  import opened Wrappers
  import opened Faults
  import opened Strings

  /** A parsed JSON token. Integers and floating-point numbers are kept apart, as the parser keeps them. */
  datatype JValue =
    | JNull
    | JBool(b: bool)
    | JInt(i: int)
    | JFloat(r: real)
    | JStr(s: string)
    | JArr(items: seq<JValue>)
    | JObj(props: map<string, JValue>)

  /** The properties of a JSON object. Their order is not modelled. */
  type Props = map<string, JValue>

  /**
   * The text `token.ToString()` gives, for the tokens whose text the model spells out:
   * null renders as "", a boolean as "True" or "False", a string as itself. Numbers,
   * arrays and objects give None: their text (number formatting, JSON serialisation) is
   * not modelled. None of those texts is empty, equals one of the error messages the
   * client compares against, or reads "TRUE" once upper-cased, so every comparison the
   * client makes on such a token comes out false.
   */
  function Text(v: JValue): Option<string>
  {
    match v
    case JNull => Some("")
    case JBool(b) => Some(if b then "True" else "False")
    case JStr(s) => Some(s)
    case _ => None
  }

  /** `bool.Parse` on a string: "true" or "false" in any letter case. */
  function ParseBool(key: string, s: string): Result<bool, Fault>
  {
    if Upper(s) == "TRUE" then Success(true)
    else if Upper(s) == "FALSE" then Success(false)
    else Failure(Unconvertible(key))
  }

  /**
   * `obj.Value<bool>(key)`: false for an absent key (the type's default); a boolean as it
   * is; a number is true when it is not zero; a string is parsed; null, arrays and
   * objects cannot be converted.
   */
  function ValueBool(props: Props, key: string): Result<bool, Fault>
  {
    if key !in props then Success(false)
    else match props[key]
      case JBool(b) => Success(b)
      case JInt(i) => Success(i != 0)
      case JFloat(r) => Success(r != 0.0)
      case JStr(s) => ParseBool(key, s)
      case _ => Failure(Unconvertible(key))
  }

  /**
   * `obj.Value<double>(key)`: 0 for an absent key; a number as it is; a boolean as 1 or 0;
   * null, arrays, objects and strings are not converted (see README for strings).
   */
  function ValueDouble(props: Props, key: string): Result<real, Fault>
  {
    if key !in props then Success(0.0)
    else match props[key]
      case JInt(i) => Success(i as real)
      case JFloat(r) => Success(r)
      case JBool(b) => Success(if b then 1.0 else 0.0)
      case _ => Failure(Unconvertible(key))
  }

  /** A JSON object the client reads and updates through its indexer. */
  class JObject {
    var props: Props

    /** `new JObject()` with no properties, or the object `JObject.Parse` builds. */
    constructor (props: Props)
      ensures this.props == props
    {
      this.props := props;
    }

    /** `obj[key] = value`: adds the property or replaces its value. */
    method Set(key: string, value: JValue)
      modifies this
      ensures props == old(props)[key := value]
    {
      props := props[key := value];
    }
  }

  /** The current properties of an object result, or its fault. */
  function Snapshot(r: Result<JObject, Fault>): Result<Props, Fault>
    reads if r.Success? then {r.value} else {}
  {
    match r
    case Success(o) => Success(o.props)
    case Failure(f) => Failure(f)
  }
}
