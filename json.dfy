/**
 * Decoded JSON values as the Python code sees them after `json.loads`:
 * Python's truthiness, `dict.get`, ordering comparison with an `int`, and
 * the shaping of an execution result into table rows (`pd.DataFrame`).
 */
module Json {
  import opened Wrappers

  /** A JSON value; an object keeps its keys in insertion order, as a Python dict does. */
  datatype Value =
    | Null
    | Bool(b: bool)
    | Num(n: int)
    | Str(s: string)
    | Arr(items: seq<Value>)
    | Obj(fields: seq<(string, Value)>)

  /** The Python exceptions the core lets escape or catches by their general type. */
  datatype PyError = AttributeError | TypeError | JsonDecodeError

  /** A call that either returns or lets a Python exception escape. */
  datatype Raises<+T> = Returns(value: T) | Escapes(error: PyError)

  /** `bool(v)` in Python. */
  predicate Truthy(v: Value) {
    match v
    case Null => false
    case Bool(b) => b
    case Num(n) => n != 0
    case Str(s) => s != []
    case Arr(items) => items != []
    case Obj(fields) => fields != []
  }

  /** The first binding of `key` in a list of fields. */
  function Lookup(fields: seq<(string, Value)>, key: string): (r: Option<Value>)
    ensures r.Some? <==> exists i :: 0 <= i < |fields| && fields[i].0 == key
    ensures r.Some? ==> exists i :: 0 <= i < |fields| && fields[i] == (key, r.value)
  {
    if fields == [] then None
    else if fields[0].0 == key then Some(fields[0].1)
    else
      var rest := Lookup(fields[1..], key);
      assert forall i :: 0 < i < |fields| ==> fields[i] == fields[1..][i - 1];
      rest
  }

  /** `d.get(key, default)` on a dict `d`. */
  function GetOr(d: Value, key: string, default: Value): (r: Value)
    requires d.Obj?
    ensures Lookup(d.fields, key).Some? ==> r == Lookup(d.fields, key).value
    ensures Lookup(d.fields, key).None? ==> r == default
  {
    match Lookup(d.fields, key)
    case Some(v) => v
    case None => default
  }

  /**
   * `v > n` for an `int` n: booleans compare as 0 and 1, and anything that is
   * not a number raises `TypeError` (None here).
   */
  function GreaterThan(v: Value, n: int): (r: Option<bool>)
    ensures r.Some? <==> (v.Num? || v.Bool?)
    ensures v.Num? ==> r == Some(v.n > n)
    ensures v.Bool? ==> r == Some((if v.b then 1 else 0) > n)
  {
    match v
    case Num(x) => Some(x > n)
    case Bool(b) => Some((if b then 1 else 0) > n)
    case _ => None
  }

  /** A boolean compares exactly as the number 1 or 0 does. */
  lemma BoolComparesAsNumber(b: bool, n: int)
    ensures GreaterThan(Bool(b), n) == GreaterThan(Num(if b then 1 else 0), n)
  {
  }

  /**
   * The rows a result becomes: a non-empty list gives one row per element,
   * a dict gives a single row, anything else gives no table (`results_df = None`).
   */
  function ToTable(results: Value): (t: Option<seq<Value>>)
    ensures t.Some? <==> (results.Arr? && results.items != []) || results.Obj?
    ensures results.Arr? && results.items != [] ==> t == Some(results.items)
    ensures results.Obj? ==> t == Some([results])
  {
    match results
    case Arr(items) => if items != [] then Some(items) else None
    case Obj(_) => Some([results])
    case _ => None
  }
}
