/**
 * The JSON tree that Foundation's parser hands to the decoders, and the
 * `as?` casts the decoders apply to it. Byte-level parsing is not modelled.
 */
module Json {
  import opened Wrappers

  datatype Json =
    | JNull
    | JBool(b: bool)
    | JNumber(n: real)
    | JString(s: string)
    | JArray(items: seq<Json>)
    | JObject(fields: map<string, Json>)

  type Object = map<string, Json>

  /** A response body: absent, rejected by the JSON parser (with its error), or parsed. */
  datatype Body<E> = NoData | Unparseable(error: E) | Parsed(root: Json)

  /** Swift's conversion of a number to `Int` drops the fraction, rounding toward zero. */
  function Truncate(r: real): (n: int)
    ensures r >= 0.0 ==> 0 <= n && n as real <= r < n as real + 1.0
    ensures r < 0.0 ==> n <= 0 && n as real - 1.0 < r <= n as real
  {
    if r >= 0.0 then r.Floor else -((-r).Floor)
  }

  function AsString(j: Json): Option<string>
  {
    if j.JString? then Some(j.s) else None
  }

  function AsDouble(j: Json): Option<real>
  {
    if j.JNumber? then Some(j.n) else None
  }

  function AsInt(j: Json): Option<int>
  {
    if j.JNumber? then Some(Truncate(j.n)) else None
  }

  function AsBool(j: Json): Option<bool>
  {
    if j.JBool? then Some(j.b) else None
  }

  function AsObject(j: Json): Option<Object>
  {
    if j.JObject? then Some(j.fields) else None
  }

  /** `as? [NSDictionary]`: an array all of whose elements are objects, else nil. */
  function AsObjectArray(j: Json): (r: Option<seq<Object>>)
    ensures r.Some? <==> j.JArray? && forall i :: 0 <= i < |j.items| ==> j.items[i].JObject?
    ensures r.Some? ==> |r.value| == |j.items| &&
                        forall i :: 0 <= i < |j.items| ==> j.items[i] == JObject(r.value[i])
  {
    if j.JArray? && forall i :: 0 <= i < |j.items| ==> j.items[i].JObject? then
      Some(seq(|j.items|, i requires 0 <= i < |j.items| => j.items[i].fields))
    else None
  }

  /** `dict[key] as? T` for each cast, nil when the key is missing. */
  function Field(o: Object, key: string): Option<Json>
  {
    if key in o then Some(o[key]) else None
  }

  function StringField(o: Object, key: string): Option<string>
  {
    if key in o then AsString(o[key]) else None
  }

  function DoubleField(o: Object, key: string): Option<real>
  {
    if key in o then AsDouble(o[key]) else None
  }

  function IntField(o: Object, key: string): Option<int>
  {
    if key in o then AsInt(o[key]) else None
  }

  function BoolField(o: Object, key: string): Option<bool>
  {
    if key in o then AsBool(o[key]) else None
  }

  function ObjectField(o: Object, key: string): Option<Object>
  {
    if key in o then AsObject(o[key]) else None
  }

  function ObjectArrayField(o: Object, key: string): Option<seq<Object>>
  {
    if key in o then AsObjectArray(o[key]) else None
  }
}
