/**
 * JSON-shaped values as the pipeline sees them after `json.loads` or
 * `yaml.safe_load`, and the few dynamic operations the stages apply to them:
 * Python truthiness, `dict.get`, `key in dict`, item assignment, iteration,
 * and numeric subtraction.  Parsing itself is never modelled: it is an
 * oracle `string -> Option<Json>` whose `None` stands for `JSONDecodeError`.
 */
module Json {
  import opened Wrappers

  /** A JSON value; objects are finite maps (Python dict key order is not modelled). */
  datatype Json =
    | Null
    | Bool(b: bool)
    | Num(n: real)
    | Str(s: string)
    | Arr(items: seq<Json>)
    | Obj(fields: map<string, Json>)

  /** `json.loads`: `None` means the text is not valid JSON. */
  type Parser = string -> Option<Json>

  /** Python's `bool(v)`: null, false, zero and empty containers are falsy. */
  predicate Truthy(v: Json) {
    match v
    case Null => false
    case Bool(b) => b
    case Num(n) => n != 0.0
    case Str(s) => |s| > 0
    case Arr(items) => |items| > 0
    case Obj(fields) => fields != map[]
  }

  /** Truthiness of an optional context entry, read with `context.get(key)`. */
  predicate Present(v: Option<Json>) {
    v.Some? && Truthy(v.value)
  }

  /**
   * `v.get(key, default)`.  Only dicts have `get`; on any other value Python
   * raises `AttributeError`, modelled as `None`.
   */
  function Get(v: Json, key: string, default: Json): (r: Option<Json>)
    ensures r.Some? <==> v.Obj?
    ensures v.Obj? && key in v.fields ==> r == Some(v.fields[key])
    ensures v.Obj? && key !in v.fields ==> r == Some(default)
  {
    match v
    case Obj(fields) => Some(if key in fields then fields[key] else default)
    case _ => None
  }

  /** `key in v` for a dict. */
  predicate HasKey(v: Json, key: string) {
    v.Obj? && key in v.fields
  }

  /** `v[key] = x` on a dict; other keys keep their values. */
  function Put(v: Json, key: string, x: Json): (r: Json)
    requires v.Obj?
    ensures r.Obj? && r.fields.Keys == v.fields.Keys + {key}
    ensures r.fields[key] == x
    ensures forall k :: k in v.fields && k != key ==> r.fields[k] == v.fields[k]
  {
    Obj(v.fields[key := x])
  }

  /**
   * The elements a `for` loop visits when its body's first act on every
   * element is `.get(...)`.  Lists yield their items; an empty str or dict
   * yields nothing; a non-empty str or dict yields str elements, on which the
   * first `.get` raises before anything else happens; numbers, booleans and
   * null are not iterable.  `None` stands for both raising cases.
   */
  function Elements(v: Json): (r: Option<seq<Json>>)
    ensures v.Arr? ==> r == Some(v.items)
    ensures r.Some? && |r.value| > 0 ==> v.Arr?
    ensures r.Some? ==> v.Arr? || !Truthy(v)
    ensures r.Some? <==> v.Arr? || v == Str("") || v == Obj(map[])
    ensures r.Some? && !v.Arr? ==> r == Some([])
  {
    match v
    case Arr(items) => Some(items)
    case Str(s) => if s == "" then Some([]) else None
    case Obj(fields) => if fields == map[] then Some([]) else None
    case _ => None
  }

  /**
   * The list a loop walks: `v.get(key, [])`, when that can be iterated.
   * `None` when `v` is not a dict or the value cannot be iterated.
   */
  function ListAt(v: Json, key: string): (r: Option<seq<Json>>)
    ensures r.Some? ==> v.Obj?
    ensures v.Obj? && key !in v.fields ==> r == Some([])
    ensures v.Obj? && key in v.fields && v.fields[key].Arr? ==> r == Some(v.fields[key].items)
    ensures v.Obj? && key in v.fields && !v.fields[key].Arr? && Truthy(v.fields[key]) ==> r.None?
    ensures r.Some? <==> v.Obj? && (key !in v.fields || v.fields[key].Arr? || v.fields[key] == Str("") || v.fields[key] == Obj(map[]))
    ensures r.Some? && !(HasKey(v, key) && v.fields[key].Arr?) ==> r == Some([])
  {
    match Get(v, key, Arr([]))
    case Some(list) => Elements(list)
    case None => None
  }

  /** `None`, `0` and `False` cannot be iterated, while `""` and `{}` iterate as empty. */
  lemma FalsyIteration(key: string)
    ensures ListAt(Obj(map[key := Null]), key).None?
    ensures ListAt(Obj(map[key := Num(0.0)]), key).None?
    ensures ListAt(Obj(map[key := Bool(false)]), key).None?
    ensures ListAt(Obj(map[key := Str("")]), key) == Some([])
    ensures ListAt(Obj(map[key := Obj(map[])]), key) == Some([])
  {
  }

  /** A JSON value used in arithmetic: Python booleans are the integers 0 and 1. */
  function AsNumber(v: Json): (r: Option<real>)
    ensures r.Some? <==> v.Num? || v.Bool?
    ensures v.Num? ==> r == Some(v.n)
    ensures v.Bool? ==> r == Some(if v.b then 1.0 else 0.0)
  {
    match v
    case Num(n) => Some(n)
    case Bool(b) => Some(if b then 1.0 else 0.0)
    case _ => None
  }

  /** `a - b` on two JSON values; `None` is the `TypeError` Python raises otherwise. */
  function Minus(a: Json, b: Json): (r: Option<real>)
    ensures a.Num? && b.Num? ==> r == Some(a.n - b.n)
    ensures r.Some? <==> AsNumber(a).Some? && AsNumber(b).Some?
    ensures r.Some? ==> r.value == AsNumber(a).value - AsNumber(b).value
  {
    match (AsNumber(a), AsNumber(b))
    case (Some(x), Some(y)) => Some(x - y)
    case _ => None
  }
}
