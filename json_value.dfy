/**
 * JSON-like values as the exporter sees them after the API client has decoded
 * a response: Python dicts, lists and scalars.  A dict is an ordered sequence
 * of fields, because Python dicts keep insertion order and the exporter writes
 * them in that order.  The module also gives the Python operations the
 * exporter applies to such values (truthiness, `d[k]`, `x[0]`, `d.get(k, v)`)
 * together with the exceptions they raise.
 */
module JsonValue {
  import opened Wrappers

  /** A JSON number, integral or not, as an exact real (see README on floating point). */
  datatype Json =
    | Null
    | Bool(b: bool)
    | Num(n: real)
    | Str(s: string)
    | Arr(elems: seq<Json>)
    | Obj(fields: seq<Field>)

  datatype Field = Field(key: string, value: Json)

  /** The key a subscript or a failed lookup names: a dict key or a list position. */
  datatype Key = Name(name: string) | Position(index: int)

  /** The Python exceptions the exporter's projections can raise. */
  datatype PyError =
    | KeyError(key: Key)
    | IndexError
    | TypeError
    | AttributeError

  /** The keys of a dict, in insertion order. */
  function Keys(fs: seq<Field>): seq<string>
  {
    if fs == [] then [] else [fs[0].key] + Keys(fs[1..])
  }

  /** The value stored under `k`, if any (the first such field). */
  function Lookup(fs: seq<Field>, k: string): (r: Option<Json>)
    ensures r.None? <==> forall i :: 0 <= i < |fs| ==> fs[i].key != k
    ensures r.Some? ==> exists i :: 0 <= i < |fs| && fs[i] == Field(k, r.value)
  {
    if fs == [] then None
    else if fs[0].key == k then Some(fs[0].value)
    else
      Lookup(fs[1..], k)
  }

  /** Python truthiness: `None`, `False`, `0`, `""`, `[]` and `{}` are false. */
  predicate Truthy(j: Json)
  {
    match j
    case Null => false
    case Bool(b) => b
    case Num(n) => n != 0.0
    case Str(s) => s != ""
    case Arr(es) => es != []
    case Obj(fs) => fs != []
  }

  /** Python `j[k]` with a string key. */
  function Subscript(j: Json, k: string): Result<Json, PyError>
  {
    match j
    case Obj(fs) =>
      (match Lookup(fs, k)
       case Some(v) => Ok(v)
       case None => Err(KeyError(Name(k))))
    case _ => Err(TypeError)
  }

  /** Python `j[0]`: the first element of a list, the first character of a string. */
  function First(j: Json): Result<Json, PyError>
  {
    match j
    case Arr(es) => if es == [] then Err(IndexError) else Ok(es[0])
    case Str(s) => if s == "" then Err(IndexError) else Ok(Str([s[0]]))
    case Obj(_) => Err(KeyError(Position(0)))
    case _ => Err(TypeError)
  }

  /** Python `j.get(k, default)`: only dicts have `get`. */
  function Get(j: Json, k: string, default: Json): Result<Json, PyError>
  {
    match j
    case Obj(fs) =>
      (match Lookup(fs, k)
       case Some(v) => Ok(v)
       case None => Ok(default))
    case _ => Err(AttributeError)
  }

  /** No sequence holds the same element twice. */
  predicate Distinct<T(==)>(s: seq<T>)
  {
    forall i, j :: 0 <= i < j < |s| ==> s[i] != s[j]
  }

  /** Every dict, at every depth, has distinct keys, as a Python dict does. */
  predicate WellFormed(j: Json)
  {
    match j
    case Arr(es) => forall i :: 0 <= i < |es| ==> WellFormed(es[i])
    case Obj(fs) =>
      && Distinct(Keys(fs))
      && forall i :: 0 <= i < |fs| ==> WellFormed(fs[i].value)
    case _ => true
  }
}
