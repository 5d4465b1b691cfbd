/**
 * A JSON document tree and the few `org.json` accessors the offerings parser
 * relies on, each with the meaning the parser needs: a `get…` accessor fails
 * when the field is missing or has another type, an `opt…` accessor yields
 * nothing in those cases.
 */
module Json {

  datatype Json =
    | JNull
    | JBool(b: bool)
    | JInt(i: int)
    | JStr(s: string)
    | JArr(items: seq<Json>)
    | JObj(fields: JsonObject)

  /** A JSON object: its fields by name. */
  type JsonObject = map<string, Json>

  datatype Option<+T> = None | Some(value: T)

  /** Why a required read failed (the exceptions `org.json` throws). */
  datatype JsonError =
    | NoValue(key: string)
    | TypeMismatch(key: string)
    | ElementNotObject(index: nat)

  /** A value or the error that aborted its computation. */
  datatype Result<+T> = Ok(value: T) | Err(error: JsonError) {
    predicate IsFailure() {
      Err?
    }

    function PropagateFailure<U>(): Result<U>
      requires Err?
    {
      Err(error)
    }

    function Extract(): T
      requires Ok?
    {
      value
    }
  }

  /** `getString(key)`: the string at `key`, or an error. */
  function GetString(o: JsonObject, key: string): (r: Result<string>)
    ensures r.Ok? <==> key in o && o[key].JStr?
    ensures r.Ok? ==> o[key] == JStr(r.value)
  {
    if key !in o then Err(NoValue(key))
    else if o[key].JStr? then Ok(o[key].s)
    else Err(TypeMismatch(key))
  }

  /** `getJSONArray(key)`: the array at `key`, or an error. */
  function GetArray(o: JsonObject, key: string): (r: Result<seq<Json>>)
    ensures r.Ok? <==> key in o && o[key].JArr?
    ensures r.Ok? ==> o[key] == JArr(r.value)
  {
    if key !in o then Err(NoValue(key))
    else if o[key].JArr? then Ok(o[key].items)
    else Err(TypeMismatch(key))
  }

  /** `getJSONObject(i)` on an array: its `i`-th element as an object, or an error. */
  function GetObjectAt(items: seq<Json>, i: nat): (r: Result<JsonObject>)
    requires i < |items|
    ensures r.Ok? <==> items[i].JObj?
    ensures r.Ok? ==> items[i] == JObj(r.value)
  {
    if items[i].JObj? then Ok(items[i].fields) else Err(ElementNotObject(i))
  }

  /** `optJSONObject(key)`: the object at `key`, if there is one. */
  function OptObject(o: JsonObject, key: string): (r: Option<JsonObject>)
    ensures r.Some? <==> key in o && o[key].JObj?
    ensures r.Some? ==> o[key] == JObj(r.value)
  {
    if key in o && o[key].JObj? then Some(o[key].fields) else None
  }

  /** `optNullableInt(key)`: the integer at `key`, if there is one. */
  function OptNullableInt(o: JsonObject, key: string): (r: Option<int>)
    ensures r.Some? <==> key in o && o[key].JInt?
    ensures r.Some? ==> o[key] == JInt(r.value)
  {
    if key in o && o[key].JInt? then Some(o[key].i) else None
  }

  /**
   * `optNullableString(key)` and `getNullableString(key)`: the string at
   * `key`, if there is one; neither fails.
   */
  function OptNullableString(o: JsonObject, key: string): (r: Option<string>)
    ensures r.Some? <==> key in o && o[key].JStr?
    ensures r.Some? ==> o[key] == JStr(r.value)
  {
    if key in o && o[key].JStr? then Some(o[key].s) else None
  }
}
