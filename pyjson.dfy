/**
 * Parsed JSON as the Python program sees it (`json.load`, `.json()`), with the
 * dynamic errors its subscripts, `.items()` and iteration raise.
 */
module PyJson {
  import opened Wrappers
  import opened Text
  import opened OrderedDict

  /** `JFloat` keeps the text Python's `str()` gives the double. */
  datatype Json =
    | JNull
    | JBool(b: bool)
    | JInt(i: int)
    | JFloat(text: string)
    | JStr(s: string)
    | JArray(items: seq<Json>)
    | JObject(entries: Dict<Json>)

  /**
   * The errors the program does not catch; `RequestError` is any `requests`
   * failure other than a timeout, `SystemExit` the `sys.exit` call, and
   * `Unmodelled` an operation the model leaves out.
   */
  datatype PyError = KeyError | IndexError | TypeError | AttributeError | RequestError | SystemExit | Unmodelled

  datatype Selector = Key(key: string) | Index(index: nat)

  /** `j[key]` or `j[index]`. */
  function Subscript(j: Json, sel: Selector): Result<Json, PyError>
  {
    match sel
    case Key(k) =>
      (match j
       case JObject(es) => (match Get(es, k) case Some(v) => Ok(v) case None => Err(KeyError))
       case _ => Err(TypeError))
    case Index(n) =>
      match j
      case JArray(items) => if n < |items| then Ok(items[n]) else Err(IndexError)
      case JStr(s) => if n < |s| then Ok(JStr([s[n]])) else Err(IndexError)
      case JObject(_) => Err(KeyError)
      case _ => Err(TypeError)
  }

  /** A chain of subscripts, `j[a][b][c]`, failing at the first one that fails. */
  function Select(j: Json, path: seq<Selector>): Result<Json, PyError>
    decreases |path|
  {
    if path == [] then Ok(j)
    else
      match Subscript(j, path[0])
      case Err(e) => Err(e)
      case Ok(x) => Select(x, path[1..])
  }

  /** `j.items()`. */
  function Items(j: Json): Result<Dict<Json>, PyError>
  {
    match j
    case JObject(es) => Ok(es)
    case _ => Err(AttributeError)
  }

  /** `for x in j`: a list's items, a dict's keys, a string's characters. */
  function Iterate(j: Json): Result<seq<Json>, PyError>
  {
    match j
    case JArray(items) => Ok(items)
    case JObject(es) => Ok(seq(|es|, i requires 0 <= i < |es| => JStr(es[i].0)))
    case JStr(s) => Ok(seq(|s|, i requires 0 <= i < |s| => JStr([s[i]])))
    case _ => Err(TypeError)
  }

  /** `str(j)`. */
  function PyStr(j: Json): string
    decreases j, 1
  {
    match j
    case JNull => "None"
    case JBool(b) => if b then "True" else "False"
    case JInt(i) => IntToString(i)
    case JFloat(t) => t
    case JStr(s) => s
    case JArray(items) =>
      "[" + Join(", ", seq(|items|, i requires 0 <= i < |items| => Repr(items[i]))) + "]"
    case JObject(es) =>
      "{" + Join(", ", seq(|es|, i requires 0 <= i < |es| => "'" + es[i].0 + "': " + Repr(es[i].1))) + "}"
  }

  /** `repr(j)` inside a container: strings in single quotes. */
  function Repr(j: Json): string
    decreases j, 2
  {
    if j.JStr? then "'" + j.s + "'" else PyStr(j)
  }
}
