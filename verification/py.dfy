/** The pieces of Python's runtime behaviour that the connector relies on:
    optional values, uncaught exceptions, decoded JSON documents, truth
    values, `dict.get`, `str.rstrip`, and how a protobuf message constructor
    treats the value it is given for a string field. */
module Py {

  datatype Option<+T> = None | Some(value: T)

  /** The exception classes that the modelled code can raise without catching
      them itself; OSError stands for every failed file operation. */
  datatype Exc = AttributeError | TypeError | ValueError | KeyError | OSError

  /** The outcome of a Python call: a value, or an exception that propagates to the caller. */
  datatype Result<+T> = Ok(value: T) | Raised(exc: Exc) {
    predicate IsFailure() {
      Raised?
    }

    function PropagateFailure<U>(): Result<U>
      requires Raised?
    {
      Raised(exc)
    }

    function Extract(): T
      requires Ok?
    {
      value
    }
  }

  /** A decoded JSON document, as `json.load` or `response.json()` return it
      (JSON numbers are taken to be integers). */
  datatype Value =
    | Null
    | Bool(b: bool)
    | Int(i: int)
    | Str(s: string)
    | Arr(items: seq<Value>)
    | Obj(fields: map<string, Value>)

  type Dict = map<string, Value>

  /** Python's truth value `bool(v)` of a decoded JSON value. */
  predicate Truthy(v: Value) {
    match v
    case Null => false
    case Bool(b) => b
    case Int(i) => i != 0
    case Str(s) => s != ""
    case Arr(items) => items != []
    case Obj(fields) => fields != map[]
  }

  /** `d.get(key, default)`. */
  function Get(d: Dict, key: string, default: Value): Value {
    if key in d then d[key] else default
  }

  /** The truth value of an optional string attribute: `not x` holds for None and for "". */
  predicate Present(s: Option<string>) {
    s.Some? && s.value != ""
  }

  /** Passing a JSON value for a string field of a protobuf message constructor:
      None leaves the field at its default "", a str is stored, anything else
      raises TypeError. */
  function ProtoString(v: Value): (r: Result<string>)
    ensures r.Ok? <==> v.Null? || v.Str?
    ensures v.Str? ==> r == Ok(v.s)
    ensures v.Null? ==> r == Ok("")
  {
    match v
    case Null => Ok("")
    case Str(s) => Ok(s)
    case _ => Raised(TypeError)
  }

  /** `s.rstrip(c)` for a single character `c`: the longest prefix of `s`
      that does not end in `c`, and everything cut off is `c`. */
  function RStrip(s: string, c: char): (r: string)
    ensures |r| <= |s| && r == s[..|r|]
    ensures r == "" || r[|r| - 1] != c
    ensures forall i | |r| <= i < |s| :: s[i] == c
  {
    if s != [] && s[|s| - 1] == c then RStrip(s[..|s| - 1], c) else s
  }
}
