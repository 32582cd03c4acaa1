/**
  The JSON values the gateway inspects, as the parson library hands them over. Parsing is not
  modelled: `json_parse_string` is a `Parser` passed in by the caller.
*/
module JsonValue {
  import opened Wrappers

  /** A parsed value, as far as the core looks at it: a string, an object, or anything else. */
  datatype Json = JString(s: string) | JObject(members: map<string, Json>) | JOther

  /** `json_parse_string`: `None` is its NULL result for text that does not parse. */
  type Parser = string -> Option<Json>

  /** `json_object_get_string`: the member's value when it is a string, otherwise NULL. */
  function GetString(members: map<string, Json>, key: string): (r: Option<string>)
    ensures r.Some? <==> key in members && members[key].JString?
    ensures r.Some? ==> members[key] == JString(r.value)
  {
    if key in members && members[key].JString? then Some(members[key].s) else None
  }

  /** `json_object_dotget_object` for a name without dots: the member's value when it is an
      object, otherwise NULL. */
  function GetObject(members: map<string, Json>, key: string): (r: Option<map<string, Json>>)
    ensures r.Some? <==> key in members && members[key].JObject?
    ensures r.Some? ==> members[key] == JObject(r.value)
  {
    if key in members && members[key].JObject? then Some(members[key].members) else None
  }
}
