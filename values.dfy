/**
 * The values a request's parameter dictionary holds, and the errors the
 * engine can raise.
 */
module Values {
  import opened Strings

  /**
   * A Python value stored in the parameter dictionary: `None`, a string,
   * an integer, or a list of such values (the multi-value `field_list`).
   */
  datatype Value = Null | Str(s: string) | Int(i: int) | List(items: seq<Value>)

  /** `d.get(k)`: the stored value, or `None` when the key is absent. */
  function Get(m: map<string, Value>, k: string): (v: Value)
    ensures k !in m ==> v == Null
    ensures k in m ==> v == m[k]
  {
    if k in m then m[k] else Null
  }

  /** The errors the modelled code raises. */
  datatype Error =
    | HttpError(status: int)          // a paginator's response whose status is not 200
    | NotUnpackable                   // unpacking the `None` that `solr_request` returns on a failed request (TypeError)
    | KeyError(key: string)           // `params.pop(key)` or `params[key]` on a missing key
    | NotIterable                     // iterating over an int or None (TypeError)
    | UnboundResponse                 // reading `response` after a loop that never ran (UnboundLocalError)
    | NoAttribute(name: string)       // `.get` on what is not a dictionary, `.split` on what is not a string (AttributeError)
    | InvalidCore(core: Value)        // the ValueError of the strict core check

  function Digit(d: nat): char
    requires d < 10
  {
    "0123456789"[d]
  }

  function NatToString(n: nat): (s: string)
    ensures |s| >= 1
  {
    if n < 10 then [Digit(n)] else NatToString(n / 10) + [Digit(n % 10)]
  }

  /** `str(i)` for an integer. */
  function IntToString(i: int): string
  {
    if i < 0 then "-" + NatToString(-i) else NatToString(i)
  }

  /** `repr(v)`: strings are quoted, lists show their elements' reprs. */
  function Repr(v: Value): string
  {
    match v
    case Null => "None"
    case Str(s) => "'" + s + "'"
    case Int(i) => IntToString(i)
    case List(items) => "[" + Join(", ", seq(|items|, k requires 0 <= k < |items| => Repr(items[k]))) + "]"
  }

  /** `str(v)`, which `"{}".format(v)` and f-strings produce: a string is itself. */
  function Render(v: Value): (r: string)
    ensures v.Str? ==> r == v.s
  {
    if v.Str? then v.s else Repr(v)
  }
}
