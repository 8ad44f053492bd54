# Zabbix API client wrappers, in Dafny

This project models the per-entity wrappers of a Go client for the Zabbix
JSON-RPC API. It covers actions, hosts, triggers, events and maintenances.

Each list wrapper (`ActionGet`, `HostsGet`, `TriggersGet`, `TriggersGetActive`,
`EventsGet`, `MaintenanceGet` and the fixed queries built on them):

- fills in the `output` parameter when the caller left it out;
- issues one call through the generic caller;
- decodes the raw result into records.

Create wrappers write the generated ids back onto the caller's records, by
position. Delete wrappers check that the server acknowledged as many ids as
were sent, and clear the caller's ids when the delete succeeds. Create, delete
and acknowledge touch no `output` parameter and decode no records.
`ActionGetById`, `HostGetById`, `HostGetByHost` and `TriggerGetByID` insist on
exactly one match; `EventsGetByID` returns the whole list with no count check. Host deletion first sends the older request shape,
one `{"hostid": id}` object per id. When the server answers with error code
-32500, it resends the ids once in the newer shape, a plain list.

The model is organised as follows:

- `entities.dfy`: raw JSON values and the records.
- `rpc.dfy`: a session whose remote end is a function of the call and of its position in the session. Every call is appended to the session's log, and the log's length is the request counter.
- `params.dfy`: the caller's parameter map, which the wrappers update in place.
- `checks.dfy`: the exactly-one and count checks.
- One file per entity.

Record slices that the wrappers update in place are arrays. Record decoding
(reflection in the Go client) is a parameter of each wrapper:

- a field decoder fills the scalar part of a record;
- one function per nested collection decodes that collection.

Each decode loop is proved equal, element by element, to a reference function
of the raw result.

## Model

| member | source | states |
|---|---|---|
| Params.WithDefaultOutput | action.go:188-190 | `output` is always present afterwards. A caller's `output` is kept; a missing one becomes `"extend"`. Every other key and value is unchanged and no other key is added |
| Params.DefaultOutputIdempotent | host.go:46-48 | Defaulting an already defaulted map changes nothing |
| Params.ParamBag.DefaultOutput | trigger.go:44-46 | The caller's map, updated in place, becomes its defaulted version |
| Rpc.ListResult | action.go:191-196 | A failed call returns its error unchanged. An answered call yields one record per raw element, each decoded from that element, in order, whatever the element's shape |
| Checks.ExactlyOne | action.go:208-213 | Succeeds exactly when there is one record, and returns that record. Otherwise it fails with `ExpectedOneResult(n)`, n being the number of records |
| Checks.ExactlyOneReturnsMatch | host.go:80-85 | A successful lookup returns a record that was matched. A failed one matched zero, or two or more |
| Checks.CountCheck | action.go:259-261 | No error exactly when the acknowledged count equals the sent count. Otherwise the error is `ExpectedMore{sent, acknowledged}` |
| Checks.DeleteAck | action.go:252-262 | A delete's outcome: the call's error unchanged, or success exactly when the reply acknowledged as many ids as were sent, or `ExpectedMore` with both counts |
| Actions.Decimal | action.go:227 | The decimal digits of a natural number: at least one digit, only digits, and no leading zero |
| Actions.DecimalValue | action.go:227 | Reading the digits back gives the number, so the digits stand for `n` |
| Actions.DecimalInjective | action.go:227 | Distinct numbers have distinct decimal forms |
| Actions.FormatId | action.go:227 | A returned numeric id rendered with no fraction digits. Never empty; it starts with a minus sign exactly when the number is negative |
| Actions.FormatIdValue | action.go:227-228 | Reading a formatted id back (sign, then digits) gives the returned number |
| Actions.FormatIdInjective | action.go:227-228 | Distinct returned numbers become distinct action ids |
| Actions.ActionGet | action.go:187-199 | The caller's map is defaulted in place. Exactly one `action.get` call is made with it. The result is the call's error, or one action per element |
| Actions.ActionGetById | action.go:202-215 | One `action.get` call with `actionids` = id and defaulted `output`. The result is the call's error, or the exactly-one check of the decoded actions |
| Actions.ActionsCreate | action.go:218-231 | One `action.create` call with the records. A failed call leaves the records unchanged. On success, record i gets the i-th returned id, formatted, and records past the returned ids keep theirs |
| Actions.AssignIds | action.go:224-229 | The back-assignment loop: the i-th returned number, formatted, becomes the id of record i, and nothing else changes |
| Actions.ActionsDelete | action.go:235-248 | Sends the records' ids in order. The outcome is the delete acknowledgement check for that many ids. Success clears every record's id; failure leaves the records unchanged |
| Actions.ActionsDeleteByIds | action.go:251-263 | One `action.delete` call with the plain id list. The outcome is the acknowledgement check of `actionids` against the number of ids sent |
| Actions.CreatedActionsHaveIds | action.go:224-229 | When the server returns an id for every record, the records' ids after create are exactly the formatted returned ids, and none is empty |
| Actions.DeleteUndoesCreate | action.go:235-248 | The ids create writes are the ids delete sends. Clearing after create gives the same records as clearing the originals |
| Hosts.HostsGet | host.go:45-57 | The caller's map is defaulted in place. One `host.get` call is made. The result is the call's error, or one host per element |
| Hosts.HostsGetByHostGroupIds | host.go:60-62 | One `host.get` call with `groupids` = the id list and defaulted `output`. The result is as for the host list |
| Hosts.HostsGetByHostGroups | host.go:65-71 | As the lookup by group ids, with the groups' ids in order |
| Hosts.HostGetById | host.go:74-87 | One `host.get` call with `hostids` = id. The result is the call's error, or the exactly-one check of the decoded hosts |
| Hosts.HostGetByHost | host.go:90-103 | One `host.get` call with `filter` = {`host`: name}. The result is the call's error, or the exactly-one check |
| Hosts.HostsCreate | host.go:106-118 | One `host.create` call with the records. A failed call leaves them unchanged. On success, record i gets the i-th returned id string, and the rest keep theirs |
| Hosts.AssignIds | host.go:112-116 | The back-assignment loop: the i-th returned string becomes the id of record i, and nothing else changes |
| Hosts.HostsDelete | host.go:122-135 | The delete exchange for the records' ids in order. Success clears every record's id; failure leaves the records unchanged |
| Hosts.HostsDeleteByIds | host.go:138-161 | First one call in the older shape, one {`hostid`: id} object per id. Only when that call fails with RPC code -32500 is it followed by one call in the newer shape, the plain id list. The outcome is the last call's error, or its acknowledgement count check |
| Hosts.DeleteUndoesCreate | host.go:122-135 | The ids create writes are the ids delete sends. Clearing after create gives the same records as clearing the originals |
| Hosts.AtMostOneRetry | host.go:144-153 | host.delete makes one or two calls. It makes two exactly when the first is refused with code -32500, and the first call is always the object-list form. Success implies the last reply acknowledged as many ids as were sent |
| Triggers.WithActiveFilters | trigger.go:85-91 | The six flags are set to 1 and `selectHosts` to `"host"`, overriding the caller. Every other key is kept and nothing else is added |
| Triggers.ActiveParamsKeepOutput | trigger.go:82-91 | The forced filters never touch `output`: the caller's choice survives, otherwise it is `"extend"` |
| Triggers.DecodeTriggers | trigger.go:51-59 | One trigger per element. Trigger i's fields come from element i, and its hosts come from element i's `hosts` when present, else they are empty |
| Triggers.TriggersGet | trigger.go:43-62 | The caller's map is defaulted in place. One `trigger.get` call is made. The result is the call's error, or one trigger per element decoded as above |
| Triggers.TriggerGetByID | trigger.go:65-78 | One `trigger.get` call with `triggerids` = id. The result is the call's error, or success exactly when one trigger matched, that trigger, and otherwise `ExpectedOneResult(n)` |
| Triggers.TriggersGetActive | trigger.go:81-108 | The caller's map becomes its defaulted version with the forced filters. One `trigger.get` call is made. The result is decoded as for the trigger list |
| Events.DecodeEvents | event.go:77-89 | The decode loop as intended. Event i's fields come from element i. Its triggers and acknowledges come from element i's keys when present, else they are empty |
| Events.DecodeEventsAsWritten | event.go:77-89 | The decode loop as written. The nested lists are as intended (under the scalar-only top-level decode listed in Left out), but every element's fields are decoded into event 1 and the other events keep zero fields. A single-element result indexes past its end |
| Events.EventsDecodedAt | event.go:77-89 | Spells out the intended result for each element: its fields, triggers and acknowledges |
| Events.AsWrittenDiffersOnlyInFields | event.go:80 | The as-written result equals the intended one except for the scalar fields (under the scalar-only top-level decode listed in Left out) |
| Events.EventsQuirkCounterexample | event.go:80 | Two events with ids "1" and "2": as written, event 0 comes back with an empty id; as intended, with "1" |
| Events.EventsGet | event.go:69-92 | The caller's map is defaulted in place. One `event.get` call is made. The result is the call's error, or the intended decoding of every element |
| Events.EventsGetByID | event.go:95-97 | One `event.get` call with `eventids` = id, `select_acknowledges` = `"extend"` and defaulted `output`. The result is decoded as for the event list |
| Events.EventsGetByTriggerID | event.go:100-102 | One `event.get` call with `objectids` = id and defaulted `output`. The result is decoded as for the event list |
| Events.EventsAckByID | event.go:105-111 | One `event.acknowledge` call with `eventids` and `message`. The outcome is the call's error, else success; the result is ignored |
| Maintenances.DecodeMaintenances | maintenance.go:45-53 | One maintenance per element. Its fields come from element i, and its time periods from element i's `timeperiods` when present, else they are empty |
| Maintenances.MaintenanceGet | maintenance.go:37-57 | The caller's map is defaulted in place. One `maintenance.get` call is made. The result is the call's error, or one maintenance per element decoded as above |

## Left out

- api.go is not part of this model. That file holds the generic caller, the JSON-RPC envelope, the HTTP transport, login and the request counter. Here the remote end is a function of the call and of its index in the session.
- The reflection-based decoders are not modelled. Field decoding is a parameter of each wrapper: `FieldDecoder` for the scalar fields and one function per nested list. The field catalogs and enum constants of the record types are summarised as an id plus a map of other attributes.
- In the event list, the top-level decode of an element could also fill the nested lists of the record it decodes into. The model treats that decode as filling only the scalar fields, and the nested lists as decoded only by the explicit per-key decodes.
- Inputs on which the wrappers panic are not modelled; the model states the shapes they need as preconditions instead:
  - a result that is not an array (`ArrayReply`, `RecordsReply`);
  - in the trigger, event and maintenance lists, an element that is not an object, or a nested key that is not an array (`RecordsReply`);
  - a create or delete reply that is not an object with an id array, or whose ids have the wrong type (`IdsReply`, `CreateReply`, `DeleteReplies`);
  - a create reply with more ids than records (`CreateReply`). The code writes the first ids, one per record, and then panics, so the records are partly updated on that path;
  - a nil parameter map, on which the `output` default panics. A `ParamBag` always holds a map.
- In the action and host lists, an element that is not an object is not a panic: the decode error is dropped and a record is still returned. The model covers this by giving those decoders any JSON value.
- Actions.ActionsCreate: returned ids are JSON numbers held as `float64`. The model holds them as integers, so it does not cover rounding of fractional or very large values.
- Actions.ActionsCreate, Hosts.HostsCreate: the code does not reject a reply with fewer ids than records. The records past the returned ids keep their ids and the call succeeds. The model follows the code: no count-mismatch error on create.
- Hosts.HostsDeleteByIds: the code retries once, with the plain id list, when the server answers error -32500. The model follows the code and does not assume that no call is ever retried.
- The wrappers add no `selectX` defaults besides `selectHosts` in the active-trigger list and `select_acknowledges` in the event lookup by id. The model follows the code.
- history.go is not part of this model.
- Concurrency is not modelled: sessions are used by one caller at a time.

## Findings

| source | as written | input that shows it | evidently intended | confidence | as-written member | corrected member |
|---|---|---|---|---|---|---|
| event.go:80 | the event list decodes every element into `res[1]` | a reply of two events with ids "1" and "2" returns event 0 with an empty id and event 1 with id "2"; a reply of exactly one event indexes past the end of the result | element i is decoded into `res[i]` | high, not executed | Events.DecodeEventsAsWritten, Events.EventsQuirkCounterexample | Events.DecodeEvents |
