/**
 * The JSON-like values the handlers and services pass around (parsed Lambda
 * events, Transcribe output, OpenAPI documents), with the Python operations
 * the source applies to them: truthiness, `d.get(k, default)`, `d[k]`,
 * `x[0]`, `k in d` and iteration over a value whose elements are then used
 * as dictionaries. A failing operation gives the exception Python raises.
 */
module PyJson {
  import opened Wrappers
  import opened PyText

  /** A parsed JSON value; a float is kept as an opaque real (no arithmetic is done on it). */
  datatype Json =
    | JNull
    | JBool(b: bool)
    | JInt(i: int)
    | JFloat(f: real)
    | JStr(s: string)
    | JList(items: seq<Json>)
    | JDict(fields: map<string, Json>)

  /** The exceptions the modelled operations raise: the kind and what str(e) is built from. */
  datatype PyError =
    | KeyError(key: Json)
    | IndexError(message: string)
    | AttributeError(typeName: string, name: string)
    | TypeError(message: string)
    | ValueError(message: string)

  /** type(x).__name__ of a parsed value. */
  function TypeName(j: Json): string {
    match j
    case JNull => "NoneType"
    case JBool(_) => "bool"
    case JInt(_) => "int"
    case JFloat(_) => "float"
    case JStr(_) => "str"
    case JList(_) => "list"
    case JDict(_) => "dict"
  }

  /** type(e).__name__ of an exception. */
  function ErrorName(e: PyError): string {
    match e
    case KeyError(_) => "KeyError"
    case IndexError(_) => "IndexError"
    case AttributeError(_, _) => "AttributeError"
    case TypeError(_) => "TypeError"
    case ValueError(_) => "ValueError"
  }

  /** str(e): a KeyError shows the repr of its key, an AttributeError names the type and the attribute. */
  function ErrorText(e: PyError): string {
    match e
    case KeyError(k) =>
      (match k
       case JStr(s) => "'" + s + "'"
       case JInt(i) => IntToString(i)
       case _ => TypeName(k))
    case IndexError(m) => m
    case AttributeError(t, n) => "'" + t + "' object has no attribute '" + n + "'"
    case TypeError(m) => m
    case ValueError(m) => m
  }

  /** The AttributeError of calling .get on a value that is not a dict. */
  function NoGet(j: Json): PyError {
    AttributeError(TypeName(j), "get")
  }

  function NotSubscriptable(j: Json): PyError {
    TypeError("'" + TypeName(j) + "' object is not subscriptable")
  }

  const ListIndexOutOfRange := IndexError("list index out of range")

  /** bool(x) in Python. */
  predicate Truthy(j: Json) {
    match j
    case JNull => false
    case JBool(b) => b
    case JInt(i) => i != 0
    case JFloat(f) => f != 0.0
    case JStr(s) => s != ""
    case JList(xs) => xs != []
    case JDict(m) => m != map[]
  }

  /** `x or default`. */
  function Or(x: Json, default: Json): (r: Json)
    ensures Truthy(x) ==> r == x
    ensures !Truthy(x) ==> r == default
  {
    if Truthy(x) then x else default
  }

  /** `d.get(key, default)`: only a dict has get. */
  function Get(d: Json, key: string, default: Json): (r: Result<Json, PyError>)
    ensures r.Ok? <==> d.JDict?
    ensures d.JDict? && key in d.fields ==> r == Ok(d.fields[key])
    ensures d.JDict? && key !in d.fields ==> r == Ok(default)
  {
    match d
    case JDict(m) => Ok(if key in m then m[key] else default)
    case _ => Err(NoGet(d))
  }

  /** `d[key]` with a string key: KeyError on a dict without it, TypeError on a list or a scalar. A str indexed by a str is a TypeError as well. */
  function Lookup(d: Json, key: string): (r: Result<Json, PyError>)
    ensures r.Ok? <==> d.JDict? && key in d.fields
    ensures r.Ok? ==> r.value == d.fields[key]
  {
    match d
    case JDict(m) => if key in m then Ok(m[key]) else Err(KeyError(JStr(key)))
    case JList(_) => Err(TypeError("list indices must be integers or slices, not str"))
    case JStr(_) => Err(TypeError("string indices must be integers, not 'str'"))
    case _ => Err(NotSubscriptable(d))
  }

  /** `x[0]`: the first element of a list, the first character of a str; a dict looks the integer 0 up as a key, which no JSON object has. */
  function First(x: Json): (r: Result<Json, PyError>)
    ensures x.JList? && x.items != [] ==> r == Ok(x.items[0])
    ensures x.JList? && x.items == [] ==> r == Err(ListIndexOutOfRange)
    ensures r.Ok? ==> x.JList? || x.JStr?
  {
    match x
    case JList(xs) => if xs == [] then Err(ListIndexOutOfRange) else Ok(xs[0])
    case JStr(s) => if s == [] then Err(IndexError("string index out of range")) else Ok(JStr([s[0]]))
    case JDict(_) => Err(KeyError(JInt(0)))
    case _ => Err(NotSubscriptable(x))
  }

  /** `m.get(key, default)` on a dict already known to be one. */
  function DictGet(m: map<string, Json>, key: string, default: Json): (r: Json)
    ensures key in m ==> r == m[key]
    ensures key !in m ==> r == default
  {
    if key in m then m[key] else default
  }

  /** `key in d` for a dict. */
  predicate Has(d: Json, key: string) {
    d.JDict? && key in d.fields
  }

  /**
   * The elements a `for` loop visits when each of them is then used as a
   * dictionary. A list gives its items. A non-empty str or dict yields
   * strings (characters or keys), and the first call of .get on one raises
   * AttributeError; an empty one yields nothing. Numbers, booleans and None
   * are not iterable.
   */
  function DictElements(x: Json): (r: Result<seq<Json>, PyError>)
    ensures x.JList? ==> r == Ok(x.items)
    ensures r.Ok? && !x.JList? ==> r.value == []
  {
    match x
    case JList(xs) => Ok(xs)
    case JStr(s) => if s == [] then Ok([]) else Err(AttributeError("str", "get"))
    case JDict(m) => if m == map[] then Ok([]) else Err(AttributeError("str", "get"))
    case _ => Err(TypeError("'" + TypeName(x) + "' object is not iterable"))
  }

  /** len(x): a str, list or dict has a length; anything else is a TypeError. */
  function Len(x: Json): (r: Result<nat, PyError>)
    ensures r.Ok? <==> x.JStr? || x.JList? || x.JDict?
    ensures x.JStr? ==> r == Ok(|x.s|)
    ensures x.JList? ==> r == Ok(|x.items|)
  {
    match x
    case JStr(s) => Ok(|s|)
    case JList(xs) => Ok(|xs|)
    case JDict(m) => Ok(|m.Keys|)
    case _ => Err(TypeError("object of type '" + TypeName(x) + "' has no len()"))
  }

  /** A str value, or None as an absent one. */
  function OptStr(s: Option<string>): (r: Json)
    ensures s.Some? <==> r.JStr?
    ensures s.Some? ==> r.s == s.value
  {
    match s
    case Some(v) => JStr(v)
    case None => JNull
  }
}
