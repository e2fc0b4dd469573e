/**
  Already-decoded JSON values, as `JSONSerialization` hands them to the program,
  and the conditional casts (`as? String`, `as? [String: Any]`, ...) the program
  applies to them.
*/
module Json {
  import opened Basics

  /** JSON numbers are modelled as integers; fractional numbers are not modelled. */
  datatype Json =
    | JNull
    | JBool(b: bool)
    | JNumber(n: int)
    | JString(s: string)
    | JArray(items: seq<Json>)
    | JObject(fields: map<string, Json>)

  /** `object[key]` on a `[String: Any]`: absent keys give nil. */
  function Lookup(fields: map<string, Json>, key: string): Option<Json> {
    if key in fields then Some(fields[key]) else None
  }

  /** `value as? String` */
  function AsString(v: Option<Json>): (r: Option<string>)
    ensures r.Some? <==> v.Some? && v.value.JString?
    ensures r.Some? ==> v.value == JString(r.value)
  {
    match v
    case Some(JString(s)) => Some(s)
    case _ => None
  }

  /** `value as? [String: Any]` */
  function AsObject(v: Option<Json>): (r: Option<map<string, Json>>)
    ensures r.Some? <==> v.Some? && v.value.JObject?
    ensures r.Some? ==> v.value == JObject(r.value)
  {
    match v
    case Some(JObject(m)) => Some(m)
    case _ => None
  }

  predicate AllStrings(fields: map<string, Json>) {
    forall k :: k in fields ==> fields[k].JString?
  }

  /** `value as? [String: String]`: succeeds only when every value is a string. */
  function AsStringMap(v: Option<Json>): (r: Option<map<string, string>>)
    ensures r.Some? <==> v.Some? && v.value.JObject? && AllStrings(v.value.fields)
    ensures r.Some? ==> r.value.Keys == v.value.fields.Keys
    ensures r.Some? ==> forall k :: k in r.value ==> v.value.fields[k] == JString(r.value[k])
  {
    match v
    case Some(JObject(m)) =>
      if AllStrings(m) then Some(map k | k in m :: m[k].s) else None
    case _ => None
  }

  predicate AllObjects(items: seq<Json>) {
    forall i :: 0 <= i < |items| ==> items[i].JObject?
  }

  /** `value as? [[String: Any]]`: succeeds only when every element is a dictionary. */
  function AsObjectArray(v: Option<Json>): (r: Option<seq<map<string, Json>>>)
    ensures r.Some? <==> v.Some? && v.value.JArray? && AllObjects(v.value.items)
    ensures r.Some? ==> |r.value| == |v.value.items|
    ensures r.Some? ==> forall i :: 0 <= i < |r.value| ==> v.value.items[i] == JObject(r.value[i])
  {
    match v
    case Some(JArray(items)) =>
      if AllObjects(items) then Some(seq(|items|, i requires 0 <= i < |items| => items[i].fields)) else None
    case _ => None
  }
}
