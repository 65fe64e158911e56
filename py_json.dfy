/**
 * Decoded JSON values as Python holds them after `json.loads`, and the handful of
 * Python operations the bot and the scraper apply to them. A result of `None`
 * means that Python raises (KeyError, TypeError, AttributeError or IndexError).
 */
module PyJson {
  import opened Wrappers
  import opened PyStrings

  datatype Json =
    | JNull
    | JBool(b: bool)
    | JInt(i: int)
    | JFloat(r: real)
    | JString(s: string)
    | JArray(items: seq<Json>)
    | JObject(fields: map<string, Json>)

  const EmptyObject: Json := JObject(map[])
  const EmptyArray: Json := JArray([])
  const EmptyString: Json := JString("")

  /** Python's truth value of a decoded value (`if v:`). */
  predicate Truthy(j: Json) {
    match j
    case JNull => false
    case JBool(b) => b
    case JInt(i) => i != 0
    case JFloat(r) => r != 0.0
    case JString(s) => s != []
    case JArray(xs) => xs != []
    case JObject(m) => m != map[]
  }

  /** `o.get(k, d)`: only a dict has `get`. */
  function DictGet(o: Json, k: string, d: Json): Option<Json> {
    match o
    case JObject(m) => Some(if k in m then m[k] else d)
    case _ => None
  }

  /** `o[k]` with a string key: a dict that holds `k`; anything else raises. */
  function Subscript(o: Json, k: string): Option<Json> {
    match o
    case JObject(m) => if k in m then Some(m[k]) else None
    case _ => None
  }

  /** The one-character strings a Python `str` yields when iterated. */
  function Chars(s: string): (r: seq<Json>)
    ensures |r| == |s|
    ensures forall i :: 0 <= i < |s| ==> r[i] == JString([s[i]])
  {
    seq(|s|, i requires 0 <= i < |s| => JString([s[i]]))
  }

  /** `o[:n]`, iterated: a list or a str can be sliced; a dict or a scalar cannot. */
  function Prefix(o: Json, n: nat): Option<seq<Json>> {
    match o
    case JArray(xs) => Some(if |xs| <= n then xs else xs[..n])
    case JString(s) => Some(Chars(if |s| <= n then s else s[..n]))
    case _ => None
  }

  /**
   * What `for x in o` visits. A non-empty dict yields its keys in insertion order,
   * which a map does not record, so only the set of keys is kept.
   */
  datatype Iteration = Items(xs: seq<Json>) | DictKeys(keys: set<string>) | NotIterable

  function Elements(o: Json): Iteration {
    match o
    case JArray(xs) => Items(xs)
    case JString(s) => Items(Chars(s))
    case JObject(m) => if m == map[] then Items([]) else DictKeys(m.Keys)
    case _ => NotIterable
  }

  /** Applies `f` to every element; fails as soon as one element fails. */
  function MapAll<T>(xs: seq<Json>, f: Json -> Option<T>): (r: Option<seq<T>>)
    ensures r.Some? <==> forall i :: 0 <= i < |xs| ==> f(xs[i]).Some?
    ensures r.Some? ==> |r.value| == |xs| && forall i :: 0 <= i < |xs| ==> f(xs[i]) == Some(r.value[i])
    decreases |xs|
  {
    if xs == [] then Some([])
    else
      match f(xs[0])
      case None => None
      case Some(y) =>
        match MapAll(xs[1..], f)
        case None => None
        case Some(ys) => Some([y] + ys)
  }

  /**
   * The text an f-string gives for a value. Python's `str()` of a float, a list or a
   * dict is not written out here; `show` stands for it.
   */
  function Display(j: Json, show: Json -> string): string {
    match j
    case JString(s) => s
    case JNull => "None"
    case JBool(b) => if b then "True" else "False"
    case JInt(i) => Decimal(i)
    case _ => show(j)
  }
}
