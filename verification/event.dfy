/**
 * The event wrappers: list with the default output selector (one event per raw
 * element, with its triggers and acknowledges when present), the two fixed
 * queries built on it, and acknowledgement.
 *
 * The list's decode loop as written stores every element's scalar fields into
 * the record at index 1 instead of index i. `DecodeEventsAsWritten` models that
 * loop; `DecodeEvents` is the loop as intended and is the one the list uses.
 */
module Events {
  import opened Entities
  import opened Rpc
  import opened Params

  const TRIGGERS := "triggers"
  const ACKNOWLEDGES := "acknowledges"

  /** How one raw event is decoded: its scalar fields, its triggers, its acknowledges. */
  datatype EventCodec = EventCodec(
    fields: FieldDecoder,
    triggers: seq<JVal> -> seq<Trigger>,
    acknowledges: seq<JVal> -> seq<Acknowledge>)

  /** A freshly allocated event. */
  const ZERO_EVENT := Event(ZeroFields, [], [])

  /** The event decoded from one raw element into a fresh record. */
  function EventOf(o: JObject, codec: EventCodec): Event
    requires ListsAt(o, {TRIGGERS, ACKNOWLEDGES})
  {
    Event(codec.fields(ZeroFields, o),
          if TRIGGERS in o then codec.triggers(o[TRIGGERS].elems) else [],
          if ACKNOWLEDGES in o then codec.acknowledges(o[ACKNOWLEDGES].elems) else [])
  }

  /** The intended result: one event per raw element, each decoded from its own element. */
  function EventsDecoded(elems: seq<JVal>, codec: EventCodec): seq<Event>
    requires RecordElems(elems, {TRIGGERS, ACKNOWLEDGES})
  {
    seq(|elems|, i requires 0 <= i < |elems| => EventOf(elems[i].fields, codec))
  }

  /** The scalar fields after decoding every element of `elems`, in order, into one record. */
  function Accumulated(decode: FieldDecoder, elems: seq<JVal>): Fields
    requires forall i :: 0 <= i < |elems| ==> elems[i].JObj?
  {
    if elems == [] then ZeroFields
    else decode(Accumulated(decode, elems[..|elems| - 1]), elems[|elems| - 1].fields)
  }

  /**
   * The result of the loop as written: nested collections land on their own
   * record, but every element's scalar fields are decoded into record 1, so the
   * other records keep zero scalar fields.
   */
  function EventsAsWritten(elems: seq<JVal>, codec: EventCodec): seq<Event>
    requires RecordElems(elems, {TRIGGERS, ACKNOWLEDGES})
  {
    seq(|elems|, i requires 0 <= i < |elems| =>
      EventOf(elems[i].fields, codec).(fields := if i == 1 then Accumulated(codec.fields, elems) else ZeroFields))
  }

  /**
   * The records after the loop as written has run over the first `n` elements:
   * record 1 holds the fields of those elements decoded in turn, the other
   * records zero fields; the first `n` records hold their own nested lists.
   */
  function AsWrittenAfter(elems: seq<JVal>, codec: EventCodec, n: nat): seq<Event>
    requires RecordElems(elems, {TRIGGERS, ACKNOWLEDGES})
    requires n <= |elems|
  {
    seq(|elems|, j requires 0 <= j < |elems| =>
      if j < n then EventOf(elems[j].fields, codec).(fields := if j == 1 then Accumulated(codec.fields, elems[..n]) else ZeroFields)
      else ZERO_EVENT.(fields := if j == 1 then Accumulated(codec.fields, elems[..n]) else ZeroFields))
  }

  /** The decode loop as written; a single-element result indexes past its end, hence the requires. */
  method DecodeEventsAsWritten(elems: seq<JVal>, codec: EventCodec) returns (res: seq<Event>)
    requires RecordElems(elems, {TRIGGERS, ACKNOWLEDGES})
    requires |elems| != 1
    ensures res == EventsAsWritten(elems, codec)
  {
    var out := seq(|elems|, _ => ZERO_EVENT);
    assert Accumulated(codec.fields, elems[..0]) == ZeroFields by { assert elems[..0] == []; }
    assert forall j :: 0 <= j < |elems| ==> out[j] == AsWrittenAfter(elems, codec, 0)[j];
    for i := 0 to |elems|
      invariant out == AsWrittenAfter(elems, codec, i)
    {
      var h := elems[i].fields;
      AccumulatedStep(codec.fields, elems, i);
      out := out[1 := out[1].(fields := codec.fields(out[1].fields, h))];
      var triggers := if TRIGGERS in h then codec.triggers(h[TRIGGERS].elems) else out[i].triggers;
      var acknowledges := if ACKNOWLEDGES in h then codec.acknowledges(h[ACKNOWLEDGES].elems) else out[i].acknowledges;
      out := out[i := out[i].(triggers := triggers, acknowledges := acknowledges)];
    }
    assert elems[..|elems|] == elems;
    res := out;
  }

  /** Accumulating one more element decodes it into the fields accumulated so far. */
  lemma AccumulatedStep(decode: FieldDecoder, elems: seq<JVal>, i: nat)
    requires forall j :: 0 <= j < |elems| ==> elems[j].JObj?
    requires i < |elems|
    ensures Accumulated(decode, elems[..i + 1]) == decode(Accumulated(decode, elems[..i]), elems[i].fields)
  {
    assert elems[..i + 1][..i] == elems[..i];
  }

  /** The decode loop as intended: element i decoded into record i. */
  method DecodeEvents(elems: seq<JVal>, codec: EventCodec) returns (res: seq<Event>)
    requires RecordElems(elems, {TRIGGERS, ACKNOWLEDGES})
    ensures res == EventsDecoded(elems, codec)
  {
    var out := new Event[|elems|](_ => ZERO_EVENT);
    for i := 0 to |elems|
      invariant forall j :: 0 <= j < i ==> out[j] == EventOf(elems[j].fields, codec)
      invariant forall j :: i <= j < |elems| ==> out[j] == ZERO_EVENT
    {
      var h := elems[i].fields;
      out[i] := out[i].(fields := codec.fields(out[i].fields, h));
      if TRIGGERS in h {
        out[i] := out[i].(triggers := codec.triggers(h[TRIGGERS].elems));
      }
      if ACKNOWLEDGES in h {
        out[i] := out[i].(acknowledges := codec.acknowledges(h[ACKNOWLEDGES].elems));
      }
    }
    res := out[..];
  }

  /** The intended loop keeps one event per element, scalar fields and nested lists from that element. */
  lemma EventsDecodedAt(elems: seq<JVal>, codec: EventCodec, i: nat)
    requires RecordElems(elems, {TRIGGERS, ACKNOWLEDGES})
    requires i < |elems|
    ensures |EventsDecoded(elems, codec)| == |elems|
    ensures EventsDecoded(elems, codec)[i].fields == codec.fields(ZeroFields, elems[i].fields)
    ensures EventsDecoded(elems, codec)[i].triggers ==
              if TRIGGERS in elems[i].fields then codec.triggers(elems[i].fields[TRIGGERS].elems) else []
    ensures EventsDecoded(elems, codec)[i].acknowledges ==
              if ACKNOWLEDGES in elems[i].fields then codec.acknowledges(elems[i].fields[ACKNOWLEDGES].elems) else []
  {
  }

  /** The loop as written differs from the intended one only in the scalar fields. */
  lemma AsWrittenDiffersOnlyInFields(elems: seq<JVal>, codec: EventCodec, i: nat)
    requires RecordElems(elems, {TRIGGERS, ACKNOWLEDGES})
    requires i < |elems|
    ensures EventsAsWritten(elems, codec)[i] ==
              EventsDecoded(elems, codec)[i].(fields := if i == 1 then Accumulated(codec.fields, elems) else ZeroFields)
  {
  }

  /**
   * Two raw events with ids "1" and "2", decoded by a decoder that reads `eventid`:
   * as written, event 0 comes back with an empty id and event 1 with id "2";
   * as intended, they come back with ids "1" and "2".
   */
  lemma EventsQuirkCounterexample()
    ensures var decode: FieldDecoder :=
              (f: Fields, o: JObject) => if "eventid" in o && o["eventid"].JStr? then f.(id := o["eventid"].s) else f;
            var codec := EventCodec(decode, _ => [], _ => []);
            var elems := [JObj(map["eventid" := JStr("1")]), JObj(map["eventid" := JStr("2")])];
            && EventsAsWritten(elems, codec)[0].fields.id == ""
            && EventsAsWritten(elems, codec)[1].fields.id == "2"
            && EventsDecoded(elems, codec)[0].fields.id == "1"
            && EventsDecoded(elems, codec)[1].fields.id == "2"
  {
    var decode: FieldDecoder :=
      (f: Fields, o: JObject) => if "eventid" in o && o["eventid"].JStr? then f.(id := o["eventid"].s) else f;
    var elems := [JObj(map["eventid" := JStr("1")]), JObj(map["eventid" := JStr("2")])];
    assert elems[..1] == [elems[0]];
    assert Accumulated(decode, elems[..1]) == Fields("1", map[]);
  }

  method EventsGet(api: Api, params: ParamBag, codec: EventCodec) returns (res: Result<seq<Event>>)
    requires RecordsReply(api.Next(Call("event.get", Bag(WithDefaultOutput(params.entries)))), {TRIGGERS, ACKNOWLEDGES})
    modifies api, params
    ensures params.entries == WithDefaultOutput(old(params.entries))
    ensures api.calls == old(api.calls) + [Call("event.get", Bag(params.entries))]
    ensures var reply := api.server(|old(api.calls)|, Call("event.get", Bag(params.entries)));
            && (reply.CallFailed? ==> res == Err(reply.error))
            && (reply.Answered? ==> res == Ok(EventsDecoded(reply.result.elems, codec)))
  {
    params.DefaultOutput();
    var reply := api.CallWithError("event.get", Bag(params.entries));
    if reply.CallFailed? {
      return Err(reply.error);
    }
    var events := DecodeEvents(reply.result.elems, codec);
    res := Ok(events);
  }

  /** The exact parameters of the lookup by event id. */
  function ByIdParams(id: string): JObject
  {
    map["eventids" := JStr(id), "select_acknowledges" := JStr("extend")]
  }

  /** The exact parameters of the lookup by trigger id. */
  function ByTriggerParams(id: string): JObject
  {
    map["objectids" := JStr(id)]
  }

  method EventsGetByID(api: Api, id: string, codec: EventCodec) returns (res: Result<seq<Event>>)
    requires RecordsReply(api.Next(Call("event.get", Bag(WithDefaultOutput(ByIdParams(id))))), {TRIGGERS, ACKNOWLEDGES})
    modifies api
    ensures api.calls == old(api.calls) + [Call("event.get", Bag(WithDefaultOutput(ByIdParams(id))))]
    ensures var reply := api.server(|old(api.calls)|, Call("event.get", Bag(WithDefaultOutput(ByIdParams(id)))));
            && (reply.CallFailed? ==> res == Err(reply.error))
            && (reply.Answered? ==> res == Ok(EventsDecoded(reply.result.elems, codec)))
  {
    var params := new ParamBag(ByIdParams(id));
    res := EventsGet(api, params, codec);
  }

  method EventsGetByTriggerID(api: Api, id: string, codec: EventCodec) returns (res: Result<seq<Event>>)
    requires RecordsReply(api.Next(Call("event.get", Bag(WithDefaultOutput(ByTriggerParams(id))))),
                          {TRIGGERS, ACKNOWLEDGES})
    modifies api
    ensures api.calls == old(api.calls) + [Call("event.get", Bag(WithDefaultOutput(ByTriggerParams(id))))]
    ensures var reply := api.server(|old(api.calls)|, Call("event.get", Bag(WithDefaultOutput(ByTriggerParams(id)))));
            && (reply.CallFailed? ==> res == Err(reply.error))
            && (reply.Answered? ==> res == Ok(EventsDecoded(reply.result.elems, codec)))
  {
    var params := new ParamBag(ByTriggerParams(id));
    res := EventsGet(api, params, codec);
  }

  /** Acknowledges an event; the result is ignored, only the call's error is returned. */
  method EventsAckByID(api: Api, id: string, message: string) returns (err: Outcome)
    modifies api
    ensures api.calls == old(api.calls) +
              [Call("event.acknowledge", Bag(map["eventids" := JStr(id), "message" := JStr(message)]))]
    ensures var reply := api.server(|old(api.calls)|,
                                    Call("event.acknowledge", Bag(map["eventids" := JStr(id), "message" := JStr(message)])));
            err == if reply.CallFailed? then Failure(reply.error) else Success
  {
    var reply := api.CallWithError("event.acknowledge", Bag(map["eventids" := JStr(id), "message" := JStr(message)]));
    if reply.CallFailed? {
      return Failure(reply.error);
    }
    return Success;
  }
}
