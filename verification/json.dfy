/** JSON values as the client sees them after `JSON.parse`, with the
    JavaScript notions the client relies on: truthiness, `undefined` for a
    missing property, and property and index reads. */
module Json {
  import opened Wrappers

  /** Objects keep their members in insertion order, which is the order
      `JSON.stringify` writes them in. Numbers are idealised as reals. */
  datatype Json =
    | JNull
    | JBool(b: bool)
    | JNum(n: real)
    | JStr(s: string)
    | JArr(items: seq<Json>)
    | JObj(fields: seq<(string, Json)>)

  /** JavaScript truthiness of a JSON value: `null`, `false`, `0` and `""`
      are falsy; every array and object, even an empty one, is truthy. */
  predicate Truthy(j: Json) {
    match j
    case JNull => false
    case JBool(b) => b
    case JNum(n) => n != 0.0
    case JStr(s) => s != ""
    case JArr(_) => true
    case JObj(_) => true
  }

  /** Truthiness of a value that may be `undefined` (`None`), which is falsy. */
  predicate Present(v: Option<Json>) {
    v.Some? && Truthy(v.value)
  }

  /** The member named `key`; as with `JSON.parse`, a later duplicate
      overrides an earlier one. */
  function Lookup(fields: seq<(string, Json)>, key: string): (r: Option<Json>)
    ensures r.None? <==> forall i :: 0 <= i < |fields| ==> fields[i].0 != key
    ensures forall i :: (0 <= i < |fields| && fields[i].0 == key
                         && forall k :: i < k < |fields| ==> fields[k].0 != key) ==> r == Some(fields[i].1)
  {
    if fields == [] then None
    else if fields[|fields| - 1].0 == key then Some(fields[|fields| - 1].1)
    else
      var init := fields[..|fields| - 1];
      var r := Lookup(init, key);
      assert forall i :: 0 <= i < |init| ==> init[i] == fields[i];
      r
  }

  /** `j.key` for one of the member names the client reads (`choices`,
      `message`, `content`, `response`, `result`, `output`, `text`): only an
      object has such a property; on a string, number, boolean or array the
      read yields `undefined`. Reading a property of `null` throws, so the
      receiver must not be `null`. */
  function Prop(j: Json, key: string): (r: Option<Json>)
    requires !j.JNull?
    ensures !j.JObj? ==> r.None?
    ensures j.JObj? ==> r == Lookup(j.fields, key)
  {
    if j.JObj? then Lookup(j.fields, key) else None
  }

  /** `j[0]`: the first element of an array, the member named "0" of an
      object, the first character of a string, and `undefined` otherwise. */
  function Index0(j: Json): (r: Option<Json>)
    requires !j.JNull?
    ensures j.JArr? ==> (r.Some? <==> j.items != [])
    ensures j.JArr? && j.items != [] ==> r == Some(j.items[0])
    ensures j.JObj? ==> r == Lookup(j.fields, "0")
    ensures j.JStr? ==> (r.Some? <==> j.s != [])
    ensures j.JNum? || j.JBool? ==> r.None?
  {
    match j
    case JArr(xs) => if xs != [] then Some(xs[0]) else None
    case JObj(fs) => Lookup(fs, "0")
    case JStr(s) => if s != [] then Some(JStr([s[0]])) else None
    case _ => None
  }

  /** `v && v.key`: `v` itself when it is falsy (or `undefined`), otherwise
      its member `key`. */
  function AndProp(v: Option<Json>, key: string): (r: Option<Json>)
    ensures Present(v) ==> r == Prop(v.value, key)
    ensures !Present(v) ==> r == v
  {
    if Present(v) then Prop(v.value, key) else v
  }

  /** `v && v[0]`. */
  function AndIndex0(v: Option<Json>): (r: Option<Json>)
    ensures Present(v) ==> r == Index0(v.value)
    ensures !Present(v) ==> r == v
  {
    if Present(v) then Index0(v.value) else v
  }

  /** `a || b`. */
  function Or(a: Option<Json>, b: Option<Json>): (r: Option<Json>)
    ensures Present(a) ==> r == a
    ensures !Present(a) ==> r == b
  {
    if Present(a) then a else b
  }
}
