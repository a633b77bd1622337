/**
 The untyped JSON value that flows through the protocol (serde_json's
 `Value`), with the two ways the codecs read it: indexing by a key, which
 never fails, and the `as_str` / `as_array` views.
 */
module JsonValues {
  import opened Wrappers

  /** Numbers are unbounded integers: the core only ever puts `u32` values
      (limits and timeouts) into numbers and never inspects others. */
  datatype Json =
    | JNull
    | JBool(b: bool)
    | JNum(n: int)
    | JStr(s: string)
    | JArr(items: seq<Json>)
    | JObj(fields: map<string, Json>)

  /** `value[key]` on a shared value: `Null` when the value is not an object
      or has no such key. */
  function Get(v: Json, key: string): Json {
    if v.JObj? && key in v.fields then v.fields[key] else JNull
  }

  /** `value.as_str()`. */
  function AsStr(v: Json): Option<string> {
    if v.JStr? then Some(v.s) else None
  }

  /** `value.as_array().cloned()`. */
  function AsArray(v: Json): Option<seq<Json>> {
    if v.JArr? then Some(v.items) else None
  }

  /** `value[key].as_str().unwrap_or("")`: the permissive string read every
      decoded field goes through. */
  function StrField(v: Json, key: string): (r: string)
    ensures (Get(v, key).JStr? && r == Get(v, key).s) || (!Get(v, key).JStr? && r == "")
  {
    AsStr(Get(v, key)).UnwrapOr("")
  }
}
