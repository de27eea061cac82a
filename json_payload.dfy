/**
 * The loosely typed request payload (an `org.json.JSONObject`) and the
 * `opt*` accessors the dispatcher reads it with. Every accessor is total:
 * a missing key, `JSONObject.NULL` or a value of a type the accessor does
 * not take gives the accessor's default. org.json's own coercions (the text
 * of a non-string value for `optString`, the strings `"true"`/`"false"` for
 * `optBoolean`, numeric strings for `optDouble`) are not modelled: such a
 * value gives the default here.
 */
module JsonPayload {
  import opened Wrappers

  /**
   * A Java `double` as the dispatcher sees it: never computed with, only
   * passed on. `NaN` is the sentinel `optDouble` returns for a missing key.
   */
  datatype Double = NaN | Num(value: real)

  /**
   * A value stored in a `JSONObject` or `JSONArray`: `JSONObject.NULL`, a
   * `Boolean`, an `Integer`/`Long`, a `Double`, a `String`, a nested
   * `JSONArray` or a nested `JSONObject`.
   */
  datatype Json =
    | JNull
    | JBool(b: bool)
    | JInt(i: int)
    | JDouble(d: real)
    | JString(s: string)
    | JArray(items: seq<Json>)
    | JObject(fields: map<string, Json>)

  /** A `JSONObject`: its keys and their values. */
  type Payload = map<string, Json>

  /** `JSONObject.optString(key, default)`. */
  function OptStringOr(p: Payload, key: string, default: string): (r: string)
    ensures (key in p && p[key].JString?) ==> r == p[key].s
    ensures !(key in p && p[key].JString?) ==> r == default
  {
    if key in p && p[key].JString? then p[key].s else default
  }

  /** `JSONObject.optString(key)`: the default is the empty string. */
  function OptString(p: Payload, key: string): string {
    OptStringOr(p, key, "")
  }

  /** `JSONObject.optBoolean(key, false)` and `optBoolean(key)`. */
  function OptBoolean(p: Payload, key: string): (r: bool)
    ensures r <==> key in p && p[key] == JBool(true)
  {
    key in p && p[key].JBool? && p[key].b
  }

  /** `JSONObject.optDouble(key)`: `NaN` unless the value is a number. */
  function OptDouble(p: Payload, key: string): (r: Double)
    ensures r.NaN? <==> !(key in p && (p[key].JInt? || p[key].JDouble?))
  {
    if key in p && p[key].JInt? then Num(p[key].i as real)
    else if key in p && p[key].JDouble? then Num(p[key].d)
    else NaN
  }

  /** `JSONObject.optJSONArray(key)`: `null` unless the value is an array. */
  function OptJsonArray(p: Payload, key: string): (r: Option<seq<Json>>)
    ensures r.Some? <==> key in p && p[key].JArray?
    ensures r.Some? ==> p[key] == JArray(r.value)
  {
    if key in p && p[key].JArray? then Some(p[key].items) else None
  }

  /** `JSONObject.optJSONObject(key)`: `null` unless the value is an object. */
  function OptJsonObject(p: Payload, key: string): (r: Option<Payload>)
    ensures r.Some? <==> key in p && p[key].JObject?
    ensures r.Some? ==> p[key] == JObject(r.value)
  {
    if key in p && p[key].JObject? then Some(p[key].fields) else None
  }

  /** Every element of the array is a string (so `getString(i)` does not throw). */
  predicate AllStrings(items: seq<Json>) {
    forall i :: 0 <= i < |items| ==> items[i].JString?
  }
}
