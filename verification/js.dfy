/** The slice of JavaScript's value model the generator relies on. */
module Js {
  import opened Wrappers

  /** A defined JavaScript value. Numbers are integers in this model; objects
      keep their own keys in iteration order. */
  datatype Json =
    | Null
    | Bool(b: bool)
    | Number(n: int)
    | Str(s: string)
    | Array(items: seq<Json>)
    | Object(fields: seq<(string, Json)>)

  /** JavaScript truthiness of a defined value. */
  predicate Truthy(v: Json) {
    match v
    case Null => false
    case Bool(b) => b
    case Number(n) => n != 0
    case Str(s) => s != ""
    case Array(_) => true
    case Object(_) => true
  }

  /** Truthiness of a string field that may be `undefined`. */
  predicate Present(s: Option<string>) {
    s.Some? && s.value != ""
  }

  /** Reading property `k` of an object: the value of its (first) entry named `k`. */
  function Get(fields: seq<(string, Json)>, k: string): (r: Option<Json>)
    ensures r.Some? <==> exists i :: 0 <= i < |fields| && fields[i].0 == k
    ensures r.Some? ==> exists i :: 0 <= i < |fields| && fields[i] == (k, r.value)
                                    && forall j :: 0 <= j < i ==> fields[j].0 != k
  {
    if fields == [] then None
    else if fields[0].0 == k then Some(fields[0].1)
    else
      var r := Get(fields[1..], k);
      if r.Some? then
        var i :| 0 <= i < |fields| - 1 && fields[1..][i] == (k, r.value)
          && forall j :: 0 <= j < i ==> fields[1..][j].0 != k;
        assert fields[i + 1] == (k, r.value) && forall j :: 0 <= j < i + 1 ==> fields[j].0 != k;
        r
      else r
  }

  /** What a thrown exception carries. */
  datatype Error =
    | NotAString(value: Json)   // the `Error('not a string: ...')` of stripContentTypePrefix
    | TypeError(reason: string) // a property read or call on `undefined`/`null`
}
