/**
 * Decoded JSON values and the few pieces of Python's dictionary semantics that
 * the response-shaping code of QueryEngine relies on: `d.get(k, default)`,
 * `d[k]`, and iterating a value with `for`.  Each Python exception that these
 * operations can raise becomes an `Err` carrying the exception kind.
 */
module PyJson {

  /** A value as produced by `response.json()` or handed back by the index SDK. */
  datatype Json =
    | JNull
    | JBool(b: bool)
    | JNumber(literal: string)   // numbers are only carried along, never inspected
    | JString(s: string)
    | JArray(elems: seq<Json>)
    | JObject(fields: map<string, Json>)

  /** The exceptions the modelled code can raise. */
  datatype Error =
    | KeyError(key: string)        // `d[k]` on a dict without key k
    | TypeError                    // subscripting or iterating a value of the wrong type
    | AttributeError               // `.get` on a value that is not a dict
    | HttpError(status: int)       // raised by `response.raise_for_status()`
    | Exception(message: string)   // `raise Exception(message)`

  /** Either a value or the exception that ended the computation. */
  datatype Result<+T> = Ok(value: T) | Err(error: Error) {
    predicate IsFailure() { Err? }

    function PropagateFailure<U>(): Result<U>
      requires Err?
    {
      Err(error)
    }

    function Extract(): T
      requires Ok?
    {
      value
    }
  }

  datatype Option<+T> = None | Some(value: T)

  /** A flat dictionary built by the source, such as `{"title": ..., "snippet": ..., "url": ...}`. */
  type Record = map<string, Json>

  /** Python's `d.get(key, default)`: only a dict has a `get` attribute. */
  function Get(d: Json, key: string, default: Json): Result<Json>
  {
    match d
    case JObject(fields) => Ok(if key in fields then fields[key] else default)
    case _ => Err(AttributeError)
  }

  /**
   * Python's `d[key]` with a string key: a dict without the key raises
   * KeyError; a list or a string ("indices must be integers"), a number,
   * a boolean or None ("not subscriptable") raise TypeError.
   */
  function Subscript(d: Json, key: string): Result<Json>
  {
    match d
    case JObject(fields) => if key in fields then Ok(fields[key]) else Err(KeyError(key))
    case _ => Err(TypeError)
  }

  /** True when `d[key]` succeeds. */
  predicate Has(d: Json, key: string)
  {
    d.JObject? && key in d.fields
  }

  /**
   * The elements a `for item in x:` loop visits, for a loop whose body starts
   * by subscripting `item` with a string key.  A list yields its elements and
   * a string its characters (one-character strings).  A dict yields its keys,
   * which are strings, so the first subscript of the body raises TypeError;
   * a map has no key order, so that outcome is produced here directly, which
   * is the same exception at the same point of the loop.  Numbers, booleans
   * and None are not iterable.
   */
  function Iterate(x: Json): Result<seq<Json>>
  {
    match x
    case JArray(elems) => Ok(elems)
    case JString(s) => Ok(seq(|s|, i requires 0 <= i < |s| => JString([s[i]])))
    case JObject(fields) => if |fields| == 0 then Ok([]) else Err(TypeError)
    case _ => Err(TypeError)
  }
}
