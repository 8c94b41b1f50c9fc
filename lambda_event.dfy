/**
 * What the Python handlers see of their event: a JSON value, subscripted with `[...]`. A
 * subscript that Python would answer with `KeyError`, `IndexError` or `TypeError` gives `None`;
 * every handler catches all exceptions, so only whether a read fails matters.
 */
module LambdaEvent {
  import opened Wrappers
  import opened Json

  /** `v[k]` with a string key: only a dict holding the key has a value. */
  function Key(v: Option<Json>, k: string): Option<Json>
  {
    match v
    case Some(Obj(m)) => if k in m then Some(m[k]) else None
    case _ => None
  }

  /**
   * `v[i]` with a non-negative integer: a list or a string within range. Indexing a string gives
   * a one-character string; a JSON dict has only string keys, so it has no entry `i`.
   */
  function Index(v: Option<Json>, i: nat): Option<Json>
  {
    match v
    case Some(Arr(items)) => if i < |items| then Some(items[i]) else None
    case Some(Str(s)) => if i < |s| then Some(Str([s[i]])) else None
    case _ => None
  }

  /** A string the handler calls a `str` method on; any other value raises `AttributeError`. */
  function StrValue(v: Option<Json>): Option<string>
  {
    match v
    case Some(Str(s)) => Some(s)
    case _ => None
  }

  /** The dict every handler returns: `{'statusCode': ..., 'body': ...}`. */
  datatype Response = Response(statusCode: int, body: string)
}
