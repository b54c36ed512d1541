/** Untyped JSON values, as `JSON.parse` produces them. */
module JsonValue {
  import opened Wrappers

  /** A JSON value. Numbers are reals: the model only compares them, it never computes with them. */
  datatype Json =
    | JNull
    | JBool(b: bool)
    | JNum(n: real)
    | JStr(s: string)
    | JArr(items: seq<Json>)
    | JObj(fields: map<string, Json>)

  /** The member `k` of an object, or None when the key is absent (JavaScript's `undefined`). */
  function Lookup(fields: map<string, Json>, k: string): (v: Option<Json>) {
    if k in fields then Some(fields[k]) else None
  }

  /** The JSON array elements that encode the strings `xs`, in order. */
  function Strings(xs: seq<string>): (r: seq<Json>)
    ensures |r| == |xs|
    ensures forall i :: 0 <= i < |xs| ==> r[i] == JStr(xs[i])
  {
    seq(|xs|, i requires 0 <= i < |xs| => JStr(xs[i]))
  }
}
