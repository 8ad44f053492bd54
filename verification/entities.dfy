/**
 * The values exchanged with the Zabbix JSON-RPC API: raw JSON results and the
 * records the entity wrappers decode them into. Only the identifier of each
 * record and its nested collections are modelled field by field; every other
 * field travels in `attrs`, keyed by its JSON name.
 */
module Entities {

  /** A decoded JSON value, as the transport hands it to a wrapper. */
  datatype JVal =
    | JNull
    | JBool(b: bool)
    | JNum(n: int)
    | JStr(s: string)
    | JArr(elems: seq<JVal>)
    | JObj(fields: map<string, JVal>)

  /** A JSON object: a string-keyed map. */
  type JObject = map<string, JVal>

  /** The scalar part of a decoded record: its identifier and all other scalar fields. */
  datatype Fields = Fields(id: string, attrs: JObject)

  /** The zero value of a freshly allocated record's scalar part. */
  const ZeroFields := Fields("", map[])

  /**
   * Decoding a JSON object INTO an existing record's scalar part, as the
   * reflection decoders do: fields the object does not mention keep their value.
   */
  type FieldDecoder = (Fields, JObject) -> Fields

  datatype Action = Action(actionId: string, attrs: JObject)

  datatype Host = Host(hostId: string, attrs: JObject)

  datatype HostGroup = HostGroup(groupId: string, attrs: JObject)

  /** A host as nested in a trigger: its id and its name. */
  datatype HostRef = HostRef(hostId: string, name: string)

  datatype Trigger = Trigger(fields: Fields, hosts: seq<HostRef>)

  datatype Acknowledge = Acknowledge(acknowledgeId: string, attrs: JObject)

  datatype Event = Event(fields: Fields, triggers: seq<Trigger>, acknowledges: seq<Acknowledge>)

  datatype TimePeriod = TimePeriod(timePeriodId: string, attrs: JObject)

  datatype Maintenance = Maintenance(fields: Fields, timePeriods: seq<TimePeriod>)
}
