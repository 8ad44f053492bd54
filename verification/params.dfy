/**
 * The parameter map a list-style wrapper receives. The map belongs to the
 * caller and the wrapper updates it in place, so it is an object here.
 */
module Params {
  import opened Entities

  const OUTPUT := "output"
  /** The server's selector for "return every field". */
  const EXTEND := JStr("extend")

  /**
   * The parameters after the list-style default: `output` becomes `extend`
   * unless the caller already chose an output; no other key changes.
   */
  function WithDefaultOutput(m: JObject): (r: JObject)
    ensures OUTPUT in r
    ensures OUTPUT in m ==> r[OUTPUT] == m[OUTPUT]
    ensures OUTPUT !in m ==> r[OUTPUT] == EXTEND
    ensures forall k :: k in m ==> k in r && r[k] == m[k]
    ensures forall k :: k in r && k != OUTPUT ==> k in m
  {
    if OUTPUT in m then m else m[OUTPUT := EXTEND]
  }

  /** Defaulting twice is defaulting once. */
  lemma DefaultOutputIdempotent(m: JObject)
    ensures WithDefaultOutput(WithDefaultOutput(m)) == WithDefaultOutput(m)
  {
  }

  class ParamBag {
    var entries: JObject

    constructor (entries: JObject)
      ensures this.entries == entries
    {
      this.entries := entries;
    }

    method DefaultOutput()
      modifies this
      ensures entries == WithDefaultOutput(old(entries))
    {
      if OUTPUT !in entries {
        entries := entries[OUTPUT := EXTEND];
      }
    }
  }
}
