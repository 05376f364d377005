/** Decoded JSON as PHP's `json_decode($body, true)` returns it. Numbers and booleans are
    carried in `JText` as the string PHP would print for them. */
module JsonValue {
  import opened Wrappers
  import opened Assoc

  datatype Json = JNull | JText(text: string) | JList(items: seq<Json>) | JObject(members: Assoc<Json>)

  /** PHP `isset($j[$key])` for a non-numeric key: an object member that is present and not null. */
  predicate IsSet(j: Json, key: string) {
    j.JObject? && HasKey(j.members, key) && Get(j.members, key).value != JNull
  }

  function Member(j: Json, key: string): (r: Json)
    requires IsSet(j, key)
    ensures r != JNull && exists i :: 0 <= i < |j.members| && j.members[i] == (key, r)
  {
    Get(j.members, key).value
  }
}
