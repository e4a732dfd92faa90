/** The Python values `json.loads` produces, and the two Python
    operations the gateway applies to them: `key in value` and
    `value[key] = item`. */
module JsonData {
  import opened Text

  /** A decoded JSON document as Python holds it: None, bool, int,
      float, str, list or dict (a dict's keys are strings). */
  datatype Json =
    | JNull
    | JBool(b: bool)
    | JInt(i: int)
    | JFloat(f: real)
    | JString(s: string)
    | JArray(items: seq<Json>)
    | JObject(fields: map<string, Json>)

  /** The Python type name of a value, as it appears in a TypeError. */
  function TypeName(v: Json): string {
    match v
    case JNull => "NoneType"
    case JBool(_) => "bool"
    case JInt(_) => "int"
    case JFloat(_) => "float"
    case JString(_) => "str"
    case JArray(_) => "list"
    case JObject(_) => "dict"
  }

  /** A TypeError raised while normalising a decision. */
  datatype TypeError =
    | NotContainer(operand: string)      // `key in v` on a number, a bool or None
    | NoItemAssignment(target: string)   // `v[key] = item` on a str, a number, a bool or None
    | ListIndexNotInt                    // `v[key] = item` on a list, with a str key

  /** CPython's text for each TypeError (str(e)). */
  function TypeErrorText(e: TypeError): string {
    match e
    case NotContainer(t) => "argument of type '" + t + "' is not iterable"
    case NoItemAssignment(t) => "'" + t + "' object does not support item assignment"
    case ListIndexNotInt => "list indices must be integers or slices, not str"
  }

  /** Python's `key in v` for a str `key`: a dict looks among its keys,
      a list compares `key` with each element, a str searches for a
      substring, and any other value raises. */
  function HasKey(v: Json, key: string): (r: Result<bool>)
    ensures r.Fail? <==> (v.JNull? || v.JBool? || v.JInt? || v.JFloat?)
    ensures v.JObject? ==> r == Pass(key in v.fields)
  {
    match v
    case JObject(fields) => Pass(key in fields)
    case JArray(items) => Pass(JString(key) in items)
    case JString(s) => Pass(Contains(s, key))
    case _ => Fail(NotContainer(TypeName(v)))
  }

  /** The text between a fixed prefix and a fixed suffix is recovered
      from the whole. */
  lemma Between(pre: string, t: string, post: string)
    requires pre != []
    ensures (pre + t + post)[0] == pre[0]
    ensures (pre + t + post)[|pre|..|pre| + |t|] == t
  {
  }

  /** Different TypeErrors have different texts, so the reason of a
      server-error record tells which error was raised. */
  lemma TypeErrorTextInjective(e1: TypeError, e2: TypeError)
    requires TypeErrorText(e1) == TypeErrorText(e2)
    ensures e1 == e2
  {
    match e1 {
      case NotContainer(t1) =>
        Between("argument of type '", t1, "' is not iterable");
      case NoItemAssignment(t1) =>
        Between("'", t1, "' object does not support item assignment");
      case ListIndexNotInt =>
    }
    match e2 {
      case NotContainer(t2) =>
        Between("argument of type '", t2, "' is not iterable");
      case NoItemAssignment(t2) =>
        Between("'", t2, "' object does not support item assignment");
      case ListIndexNotInt =>
    }
  }

  /** The TypeError that `v[key] = item` raises when `v` is not a dict:
      a list rejects a str index, anything else rejects item assignment
      and is named by its type. */
  function AssignmentError(v: Json): (e: TypeError)
    ensures e.ListIndexNotInt? <==> v.JArray?
    ensures e.NoItemAssignment? <==> !v.JArray?
    ensures e.NoItemAssignment? ==> e.target == TypeName(v)
  {
    if v.JArray? then ListIndexNotInt else NoItemAssignment(TypeName(v))
  }

  /** The outcome of one Python step that may raise a TypeError. */
  datatype Result<T> = Pass(value: T) | Fail(error: TypeError)
}
