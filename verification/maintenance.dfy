/**
 * The maintenance wrapper: list with the default output selector, one
 * maintenance per raw element and its time periods only when the element has them.
 */
module Maintenances {
  import opened Entities
  import opened Rpc
  import opened Params

  const TIME_PERIODS := "timeperiods"

  /** How one raw maintenance is decoded: its scalar fields, and its nested time periods. */
  datatype MaintenanceCodec = MaintenanceCodec(fields: FieldDecoder, timePeriods: seq<JVal> -> seq<TimePeriod>)

  /** A freshly allocated maintenance. */
  const ZERO_MAINTENANCE := Maintenance(ZeroFields, [])

  /** The maintenance decoded from one raw element. */
  function MaintenanceOf(o: JObject, codec: MaintenanceCodec): Maintenance
    requires ListsAt(o, {TIME_PERIODS})
  {
    Maintenance(codec.fields(ZeroFields, o), Nested(o, TIME_PERIODS, codec.timePeriods))
  }

  /** The decode loop: one maintenance per raw element, in order. */
  method DecodeMaintenances(elems: seq<JVal>, codec: MaintenanceCodec) returns (res: seq<Maintenance>)
    requires RecordElems(elems, {TIME_PERIODS})
    ensures |res| == |elems|
    ensures forall i :: 0 <= i < |elems| ==> res[i].fields == codec.fields(ZeroFields, elems[i].fields)
    ensures forall i :: 0 <= i < |elems| ==>
              res[i].timePeriods ==
                (if TIME_PERIODS in elems[i].fields then codec.timePeriods(elems[i].fields[TIME_PERIODS].elems) else [])
  {
    var out := new Maintenance[|elems|](_ => ZERO_MAINTENANCE);
    for i := 0 to |elems|
      invariant forall j :: 0 <= j < i ==> out[j] == MaintenanceOf(elems[j].fields, codec)
      invariant forall j :: i <= j < |elems| ==> out[j] == ZERO_MAINTENANCE
    {
      var h := elems[i].fields;
      out[i] := out[i].(fields := codec.fields(out[i].fields, h));
      if TIME_PERIODS in h {
        out[i] := out[i].(timePeriods := codec.timePeriods(h[TIME_PERIODS].elems));
      }
    }
    res := out[..];
  }

  method MaintenanceGet(api: Api, params: ParamBag, codec: MaintenanceCodec) returns (res: Result<seq<Maintenance>>)
    requires RecordsReply(api.Next(Call("maintenance.get", Bag(WithDefaultOutput(params.entries)))), {TIME_PERIODS})
    modifies api, params
    ensures params.entries == WithDefaultOutput(old(params.entries))
    ensures api.calls == old(api.calls) + [Call("maintenance.get", Bag(params.entries))]
    ensures var reply := api.server(|old(api.calls)|, Call("maintenance.get", Bag(params.entries)));
            && (reply.CallFailed? ==> res == Err(reply.error))
            && (reply.Answered? ==>
                  res.Ok? && |res.value| == |reply.result.elems| &&
                  forall i :: 0 <= i < |res.value| ==> res.value[i] == MaintenanceOf(reply.result.elems[i].fields, codec))
  {
    params.DefaultOutput();
    var reply := api.CallWithError("maintenance.get", Bag(params.entries));
    if reply.CallFailed? {
      return Err(reply.error);
    }
    var maintenances := DecodeMaintenances(reply.result.elems, codec);
    res := Ok(maintenances);
  }
}
