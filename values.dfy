/** Value types shared by the model of flameMenuKITSU: optional values, the outcome of a
    call into the Kitsu client, and Kitsu entities (projects, tasks, users) as dictionaries. */
module Values {

  datatype Option<+T> = None | Some(value: T)

  /** Outcome of one call into the Kitsu client: its result, or an exception that the
      caller catches. */
  datatype Fetch<+T> = Ok(value: T) | Err

  /** A Kitsu entity as the client returns it: a dictionary of string fields. */
  type Entity = map<string, string>

  /** Python truthiness of a value that is either None or a string. */
  predicate IsSet(s: Option<string>) {
    s.Some? && s.value != ""
  }

  /** `d.get(key)` on an entity. */
  function Field(d: Entity, key: string): (r: Option<string>)
    ensures r.Some? <==> key in d
    ensures r.Some? ==> r.value == d[key]
  {
    if key in d then Some(d[key]) else None
  }
}
