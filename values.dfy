/**
 * The loosely typed values that cross the platform channel: the `Any` of
 * `call.arguments as! [String: Any]` and of the SDK's `[AnyHashable: Any]`
 * payloads, and the conditional casts `as? String` and `as? Bool` on them.
 */
module Values {
  import opened Wrappers

  /** A value as Swift's `Any` holds it; `Opaque` stands for every other kind (lists, nested maps, ...). */
  datatype Value = Str(s: string) | Boolean(b: bool) | Number(n: int) | Nil | Opaque(id: nat)

  /** A `[String: Any]` dictionary of call parameters. */
  type Params = map<string, Value>

  /** `call.arguments`: either a dictionary with string keys, or anything else (which `as!` traps on). */
  datatype Arguments = Dictionary(params: Params) | NotDictionary

  /** An SDK callback payload, `[AnyHashable: Any]`. */
  type Payload = map<Value, Value>

  /** `params[key] as? String`: the string stored under `key`, or nil when absent or of another type. */
  function AsString(p: Params, key: string): (r: Option<string>)
    ensures r.Some? <==> key in p && p[key].Str?
    ensures r.Some? ==> p[key] == Str(r.value)
  {
    if key in p && p[key].Str? then Some(p[key].s) else None
  }

  /** `params[key] as? Bool`: the boolean stored under `key`, or nil when absent or of another type. */
  function AsBool(p: Params, key: string): (r: Option<bool>)
    ensures r.Some? <==> key in p && p[key].Boolean?
    ensures r.Some? ==> p[key] == Boolean(r.value)
  {
    if key in p && p[key].Boolean? then Some(p[key].b) else None
  }
}
