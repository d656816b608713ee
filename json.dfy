/** A parsed JSON document, as `response.json()` and `json.loads` hand it to the
    program, and the two Python operations the program applies to it:
    subscripting by a key and iterating with `for`. */
module Json {
  import opened Common

  datatype Json =
    | JNull
    | JBool(b: bool)
    | JNumber(literal: string)
    | JString(text: string)
    | JArray(items: seq<Json>)
    | JObject(members: map<string, Json>)

  /** `j[key]`: a dict yields the member or raises KeyError; every other kind raises TypeError. */
  function Lookup(j: Json, key: string): (r: Result<Json>)
    ensures r.Ok? <==> j.JObject? && key in j.members
    ensures r.Ok? ==> r.value == j.members[key]
    ensures r.Err? ==> r.error == if j.JObject? then MissingKey(key) else TypeMismatch
  {
    match j
    case JObject(m) => if key in m then Ok(m[key]) else Err(MissingKey(key))
    case _ => Err(TypeMismatch)
  }

  /** What `for result in j` feeds to a loop body that subscripts each element with a
      string key. A list yields its items. A dict yields its keys and a str its
      characters, both strings, and subscripting a string by a key raises TypeError; so
      only an empty dict or an empty str gets through, with nothing to iterate.
      Numbers, booleans and None are not iterable. */
  function Elements(j: Json): (r: Result<seq<Json>>)
    ensures r.Ok? <==> j.JArray? || j == JObject(map[]) || j == JString("")
    ensures j.JArray? ==> r == Ok(j.items)
    ensures r.Ok? && !j.JArray? ==> r.value == []
    ensures r.Err? ==> r.error == TypeMismatch
  {
    match j
    case JArray(items) => Ok(items)
    case JObject(m) => if |m| == 0 then Ok([]) else Err(TypeMismatch)
    case JString(s) => if s == [] then Ok([]) else Err(TypeMismatch)
    case _ => Err(TypeMismatch)
  }
}
