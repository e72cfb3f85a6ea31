/**
 * A decoded JSON document, and the two conversions Go's encoding/json applies
 * when it decodes into `map[string]interface{}` and `[]map[string]interface{}`.
 * Parsing text into a `Json` value is not modelled: it is a parameter of the
 * model (see `Wallix.Stdlib`).
 */
module Json {
  import opened Wrappers

  datatype Json =
    | Null
    | Bool(b: bool)
    | Number(x: real)        // every JSON number decodes to a Go float64
    | Str(s: string)
    | List(items: seq<Json>)
    | Obj(fields: map<string, Json>)

  /** A Go `map[string]interface{}`: a missing key reads as the nil interface. */
  type Object = map<string, Json>

  /** `o[key].(string)` with the comma-ok form. */
  function StringAt(o: Object, key: string): (r: Option<string>)
    ensures r.Some? <==> key in o && o[key].Str?
    ensures r.Some? ==> o[key] == Str(r.value)
  {
    if key in o && o[key].Str? then Some(o[key].s) else None
  }

  /** `o[key].(bool)` with the comma-ok form. */
  function BoolAt(o: Object, key: string): (r: Option<bool>)
    ensures r.Some? <==> key in o && o[key].Bool?
    ensures r.Some? ==> o[key] == Bool(r.value)
  {
    if key in o && o[key].Bool? then Some(o[key].b) else None
  }

  /** `o[key].(float64)` with the comma-ok form. */
  function NumberAt(o: Object, key: string): (r: Option<real>)
    ensures r.Some? <==> key in o && o[key].Number?
    ensures r.Some? ==> o[key] == Number(r.value)
  {
    if key in o && o[key].Number? then Some(o[key].x) else None
  }

  /** A value that encoding/json stores into a `map[string]interface{}` without error. */
  predicate IsObjectLike(j: Json) {
    j.Obj? || j.Null?
  }

  /**
   * Decoding into `map[string]interface{}`: an object gives its fields, `null`
   * leaves the map nil (no error, every lookup misses), anything else is a type error.
   */
  function AsObject(j: Json): (r: Option<Object>)
    ensures r.Some? <==> IsObjectLike(j)
    ensures j.Obj? ==> r == Some(j.fields)
    ensures j.Null? ==> r == Some(map[])
  {
    match j
    case Obj(m) => Some(m)
    case Null => Some(map[])
    case _ => None
  }

  /** The elements of a JSON array decoded one by one into `map[string]interface{}`. */
  function AsObjects(items: seq<Json>): (r: Option<seq<Object>>)
    ensures r.Some? <==> forall i :: 0 <= i < |items| ==> IsObjectLike(items[i])
    ensures r.Some? ==> |r.value| == |items|
    ensures r.Some? ==> forall i :: 0 <= i < |items| ==> AsObject(items[i]) == Some(r.value[i])
  {
    if items == [] then Some([])
    else
      match (AsObject(items[0]), AsObjects(items[1..]))
      case (Some(first), Some(rest)) => Some([first] + rest)
      case _ => None
  }

  /**
   * Decoding into `[]map[string]interface{}`: an array of objects (or nulls)
   * gives one map per element, `null` leaves the slice nil (length 0), anything
   * else is a type error.
   */
  function AsObjectList(j: Json): (r: Option<seq<Object>>)
    ensures j.Null? ==> r == Some([])
    ensures !j.Null? && !j.List? ==> r.None?
    ensures j.List? ==> (r.Some? <==> forall i :: 0 <= i < |j.items| ==> IsObjectLike(j.items[i]))
    ensures j.List? && r.Some? ==> |r.value| == |j.items|
  {
    match j
    case Null => Some([])
    case List(items) => AsObjects(items)
    case _ => None
  }
}
