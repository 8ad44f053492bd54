/**
 * The trigger wrappers: list with the default output selector, lookup by id,
 * and the "active problems" list that forces the dashboard filters. Both lists
 * decode one trigger per element and its hosts only when the element has them.
 */
module Triggers {
  import opened Entities
  import opened Rpc
  import opened Params
  import opened Checks

  const HOSTS := "hosts"

  /** The flags the active-problems list sets to 1, overriding the caller. */
  const ACTIVE_FLAGS: set<string> :=
    {"expandDescription", "active", "withLastEventUnacknowledged", "monitored", "only_true", "skipDependent"}
  const SELECT_HOSTS := "selectHosts"

  /** How one raw trigger is decoded: its scalar fields, and its nested hosts. */
  datatype TriggerCodec = TriggerCodec(fields: FieldDecoder, hosts: seq<JVal> -> seq<HostRef>)

  /**
   * The parameters of the active-problems list: the six flags set to 1 and
   * `selectHosts` set to "host", whatever the caller gave; every other key kept.
   */
  function WithActiveFilters(m: JObject): (r: JObject)
    ensures forall k :: k in ACTIVE_FLAGS ==> k in r && r[k] == JNum(1)
    ensures SELECT_HOSTS in r && r[SELECT_HOSTS] == JStr("host")
    ensures forall k :: k in m && k !in ACTIVE_FLAGS && k != SELECT_HOSTS ==> k in r && r[k] == m[k]
    ensures forall k :: k in r ==> k in m || k in ACTIVE_FLAGS || k == SELECT_HOSTS
  {
    m["expandDescription" := JNum(1)]
     ["active" := JNum(1)]
     ["withLastEventUnacknowledged" := JNum(1)]
     ["monitored" := JNum(1)]
     ["only_true" := JNum(1)]
     ["skipDependent" := JNum(1)]
     [SELECT_HOSTS := JStr("host")]
  }

  /** The parameters the active-problems list sends for the caller's `m`. */
  function ActiveParams(m: JObject): JObject
  {
    WithActiveFilters(WithDefaultOutput(m))
  }

  /** The forced filters never touch the output selector: a caller's choice survives, otherwise "extend". */
  lemma ActiveParamsKeepOutput(m: JObject)
    ensures OUTPUT in ActiveParams(m)
    ensures ActiveParams(m)[OUTPUT] == if OUTPUT in m then m[OUTPUT] else EXTEND
  {
  }

  /** The trigger decoded from one raw element. */
  function TriggerOf(o: JObject, codec: TriggerCodec): Trigger
    requires ListsAt(o, {HOSTS})
  {
    Trigger(codec.fields(ZeroFields, o), Nested(o, HOSTS, codec.hosts))
  }

  /** The decode loop shared by both list wrappers: one trigger per raw element, in order. */
  method DecodeTriggers(elems: seq<JVal>, codec: TriggerCodec) returns (res: seq<Trigger>)
    requires RecordElems(elems, {HOSTS})
    ensures |res| == |elems|
    ensures forall i :: 0 <= i < |elems| ==> res[i].fields == codec.fields(ZeroFields, elems[i].fields)
    ensures forall i :: 0 <= i < |elems| ==>
              res[i].hosts == (if HOSTS in elems[i].fields then codec.hosts(elems[i].fields[HOSTS].elems) else [])
  {
    var out := new Trigger[|elems|](_ => Trigger(ZeroFields, []));
    for i := 0 to |elems|
      invariant forall j :: 0 <= j < i ==> out[j] == TriggerOf(elems[j].fields, codec)
      invariant forall j :: i <= j < |elems| ==> out[j] == Trigger(ZeroFields, [])
    {
      var h := elems[i].fields;
      out[i] := out[i].(fields := codec.fields(out[i].fields, h));
      if HOSTS in h {
        out[i] := out[i].(hosts := codec.hosts(h[HOSTS].elems));
      }
    }
    res := out[..];
  }

  method TriggersGet(api: Api, params: ParamBag, codec: TriggerCodec) returns (res: Result<seq<Trigger>>)
    requires RecordsReply(api.Next(Call("trigger.get", Bag(WithDefaultOutput(params.entries)))), {HOSTS})
    modifies api, params
    ensures params.entries == WithDefaultOutput(old(params.entries))
    ensures api.calls == old(api.calls) + [Call("trigger.get", Bag(params.entries))]
    ensures var reply := api.server(|old(api.calls)|, Call("trigger.get", Bag(params.entries)));
            && (reply.CallFailed? ==> res == Err(reply.error))
            && (reply.Answered? ==>
                  res.Ok? && |res.value| == |reply.result.elems| &&
                  forall i :: 0 <= i < |res.value| ==> res.value[i] == TriggerOf(reply.result.elems[i].fields, codec))
  {
    params.DefaultOutput();
    var reply := api.CallWithError("trigger.get", Bag(params.entries));
    if reply.CallFailed? {
      return Err(reply.error);
    }
    var triggers := DecodeTriggers(reply.result.elems, codec);
    res := Ok(triggers);
  }

  method TriggerGetByID(api: Api, id: string, codec: TriggerCodec) returns (res: Result<Trigger>)
    requires RecordsReply(api.Next(Call("trigger.get", Bag(WithDefaultOutput(map["triggerids" := JStr(id)])))), {HOSTS})
    modifies api
    ensures api.calls == old(api.calls) + [Call("trigger.get", Bag(WithDefaultOutput(map["triggerids" := JStr(id)])))]
    ensures var reply := api.server(|old(api.calls)|, Call("trigger.get", Bag(WithDefaultOutput(map["triggerids" := JStr(id)]))));
            && (reply.CallFailed? ==> res == Err(reply.error))
            && (reply.Answered? ==> (res.Ok? <==> |reply.result.elems| == 1))
            && (reply.Answered? && res.Ok? ==> res.value == TriggerOf(reply.result.elems[0].fields, codec))
            && (reply.Answered? && res.Err? ==> res.error == ExpectedOneResult(|reply.result.elems|))
  {
    var params := new ParamBag(map["triggerids" := JStr(id)]);
    var triggers := TriggersGet(api, params, codec);
    if triggers.Err? {
      return Err(triggers.error);
    }
    res := ExactlyOne(triggers.value);
  }

  method TriggersGetActive(api: Api, params: ParamBag, codec: TriggerCodec) returns (res: Result<seq<Trigger>>)
    requires RecordsReply(api.Next(Call("trigger.get", Bag(ActiveParams(params.entries)))), {HOSTS})
    modifies api, params
    ensures params.entries == ActiveParams(old(params.entries))
    ensures api.calls == old(api.calls) + [Call("trigger.get", Bag(params.entries))]
    ensures var reply := api.server(|old(api.calls)|, Call("trigger.get", Bag(params.entries)));
            && (reply.CallFailed? ==> res == Err(reply.error))
            && (reply.Answered? ==>
                  res.Ok? && |res.value| == |reply.result.elems| &&
                  forall i :: 0 <= i < |res.value| ==> res.value[i] == TriggerOf(reply.result.elems[i].fields, codec))
  {
    params.DefaultOutput();
    params.entries := params.entries["expandDescription" := JNum(1)];
    params.entries := params.entries["active" := JNum(1)];
    params.entries := params.entries["withLastEventUnacknowledged" := JNum(1)];
    params.entries := params.entries["monitored" := JNum(1)];
    params.entries := params.entries["only_true" := JNum(1)];
    params.entries := params.entries["skipDependent" := JNum(1)];
    params.entries := params.entries[SELECT_HOSTS := JStr("host")];

    var reply := api.CallWithError("trigger.get", Bag(params.entries));
    if reply.CallFailed? {
      return Err(reply.error);
    }
    var triggers := DecodeTriggers(reply.result.elems, codec);
    res := Ok(triggers);
  }
}
