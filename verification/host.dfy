/**
 * The host wrappers: list with the default output selector, list by host
 * groups, lookups by id and by technical name, create with positional id
 * back-assignment, and delete, which first sends the older object-list request
 * and falls back once to the newer plain-id-list request.
 */
module Hosts {
  import opened Entities
  import opened Rpc
  import opened Params
  import opened Checks

  const HOST_IDS := "hostids"

  /** The server error code on which host.delete resends its ids as a plain list (the newer request shape). */
  const PLAIN_IDS_CODE := -32500

  function HostIds(hosts: seq<Host>): seq<string>
  {
    seq(|hosts|, i requires 0 <= i < |hosts| => hosts[i].hostId)
  }

  function GroupIds(groups: seq<HostGroup>): seq<string>
  {
    seq(|groups|, i requires 0 <= i < |groups| => groups[i].groupId)
  }

  /** The records after create: the i-th returned id on the i-th record, the rest untouched. */
  function WithHostIds(hosts: seq<Host>, ids: seq<string>): seq<Host>
    requires |ids| <= |hosts|
  {
    seq(|hosts|, i requires 0 <= i < |hosts| =>
      if i < |ids| then hosts[i].(hostId := ids[i]) else hosts[i])
  }

  /** The records after a successful delete: every id cleared. */
  function ClearedHosts(hosts: seq<Host>): seq<Host>
  {
    seq(|hosts|, i requires 0 <= i < |hosts| => hosts[i].(hostId := ""))
  }

  /** The string ids of a list of JSON strings. */
  function Strings(vals: seq<JVal>): seq<string>
    requires forall i :: 0 <= i < |vals| ==> vals[i].JStr?
  {
    seq(|vals|, i requires 0 <= i < |vals| => vals[i].s)
  }

  /** The shape host.create must answer with: string ids, no more than records sent. */
  predicate CreateReply(reply: Reply, count: nat)
  {
    && IdsReply(reply, HOST_IDS)
    && (reply.Answered? ==>
          var ids := ReturnedIds(reply, HOST_IDS);
          |ids| <= count && forall i :: 0 <= i < |ids| ==> ids[i].JStr?)
  }

  function GetCall(entries: JObject): Call
  {
    Call("host.get", Bag(WithDefaultOutput(entries)))
  }

  /** The first, older request shape of host.delete: one {"hostid": id} object per id, in order. */
  function ObjectDeleteCall(ids: seq<string>): Call
  {
    Call("host.delete", HostIdObjects(seq(|ids|, i requires 0 <= i < |ids| => map["hostid" := ids[i]])))
  }

  /** The newer request shape of host.delete, the only one later servers accept: the plain list of ids. */
  function PlainDeleteCall(ids: seq<string>): Call
  {
    Call("host.delete", IdList(ids))
  }

  /** The one failure that makes host.delete retry with the plain list: a server error with code -32500. */
  predicate WantsPlainIds(reply: Reply)
  {
    reply.CallFailed? && reply.error.RpcError? && reply.error.code == PLAIN_IDS_CODE
  }

  /** The reply shapes host.delete relies on, when it is issued as call number `n` of a session. */
  predicate DeleteReplies(server: (nat, Call) -> Reply, n: nat, ids: seq<string>)
  {
    && IdsReply(server(n, ObjectDeleteCall(ids)), HOST_IDS)
    && (WantsPlainIds(server(n, ObjectDeleteCall(ids))) ==> IdsReply(server(n + 1, PlainDeleteCall(ids)), HOST_IDS))
  }

  /**
   * The effect of deleting `ids` on a session whose log goes from `before` to
   * `after`: the object-list request first; the plain-list request once more
   * only if the first failed with code -32500; the error of the last
   * call as is, or the count check of the ids it acknowledged.
   */
  predicate DeleteExchange(server: (nat, Call) -> Reply, before: seq<Call>, after: seq<Call>,
                           ids: seq<string>, err: Outcome)
    requires DeleteReplies(server, |before|, ids)
  {
    var first := server(|before|, ObjectDeleteCall(ids));
    if WantsPlainIds(first) then
      && after == before + [ObjectDeleteCall(ids), PlainDeleteCall(ids)]
      && err == DeleteAck(server(|before| + 1, PlainDeleteCall(ids)), HOST_IDS, |ids|)
    else
      && after == before + [ObjectDeleteCall(ids)]
      && err == DeleteAck(first, HOST_IDS, |ids|)
  }

  method HostsGet(api: Api, params: ParamBag, decode: JVal -> Host) returns (res: Result<seq<Host>>)
    requires ArrayReply(api.Next(GetCall(params.entries)))
    modifies api, params
    ensures params.entries == WithDefaultOutput(old(params.entries))
    ensures api.calls == old(api.calls) + [Call("host.get", Bag(params.entries))]
    ensures res == ListResult(api.server(|old(api.calls)|, Call("host.get", Bag(params.entries))), decode)
  {
    params.DefaultOutput();
    var reply := api.CallWithError("host.get", Bag(params.entries));
    if reply.CallFailed? {
      return Err(reply.error);
    }
    res := Ok(DecodeAll(reply.result.elems, decode));
  }

  method HostsGetByHostGroupIds(api: Api, ids: seq<string>, decode: JVal -> Host)
    returns (res: Result<seq<Host>>)
    requires ArrayReply(api.Next(GetCall(map["groupids" := StringList(ids)])))
    modifies api
    ensures api.calls == old(api.calls) + [GetCall(map["groupids" := StringList(ids)])]
    ensures res == ListResult(api.server(|old(api.calls)|, GetCall(map["groupids" := StringList(ids)])), decode)
  {
    var params := new ParamBag(map["groupids" := StringList(ids)]);
    res := HostsGet(api, params, decode);
  }

  method HostsGetByHostGroups(api: Api, groups: seq<HostGroup>, decode: JVal -> Host)
    returns (res: Result<seq<Host>>)
    requires ArrayReply(api.Next(GetCall(map["groupids" := StringList(GroupIds(groups))])))
    modifies api
    ensures api.calls == old(api.calls) + [GetCall(map["groupids" := StringList(GroupIds(groups))])]
    ensures res == ListResult(api.server(|old(api.calls)|, GetCall(map["groupids" := StringList(GroupIds(groups))])),
                              decode)
  {
    var ids := new string[|groups|];
    for i := 0 to |groups|
      modifies ids
      invariant forall j :: 0 <= j < i ==> ids[j] == groups[j].groupId
    {
      ids[i] := groups[i].groupId;
    }
    assert ids[..] == GroupIds(groups);
    res := HostsGetByHostGroupIds(api, ids[..], decode);
  }

  method HostGetById(api: Api, id: string, decode: JVal -> Host) returns (res: Result<Host>)
    requires ArrayReply(api.Next(GetCall(map["hostids" := JStr(id)])))
    modifies api
    ensures api.calls == old(api.calls) + [GetCall(map["hostids" := JStr(id)])]
    ensures var reply := api.server(|old(api.calls)|, GetCall(map["hostids" := JStr(id)]));
            && (reply.CallFailed? ==> res == Err(reply.error))
            && (reply.Answered? ==> res == ExactlyOne(DecodeAll(reply.result.elems, decode)))
  {
    var params := new ParamBag(map["hostids" := JStr(id)]);
    var hosts := HostsGet(api, params, decode);
    if hosts.Err? {
      return Err(hosts.error);
    }
    res := ExactlyOne(hosts.value);
  }

  method HostGetByHost(api: Api, host: string, decode: JVal -> Host) returns (res: Result<Host>)
    requires ArrayReply(api.Next(GetCall(map["filter" := JObj(map["host" := JStr(host)])])))
    modifies api
    ensures api.calls == old(api.calls) + [GetCall(map["filter" := JObj(map["host" := JStr(host)])])]
    ensures var reply := api.server(|old(api.calls)|, GetCall(map["filter" := JObj(map["host" := JStr(host)])]));
            && (reply.CallFailed? ==> res == Err(reply.error))
            && (reply.Answered? ==> res == ExactlyOne(DecodeAll(reply.result.elems, decode)))
  {
    var params := new ParamBag(map["filter" := JObj(map["host" := JStr(host)])]);
    var hosts := HostsGet(api, params, decode);
    if hosts.Err? {
      return Err(hosts.error);
    }
    res := ExactlyOne(hosts.value);
  }

  method HostsCreate(api: Api, hosts: array<Host>) returns (err: Outcome)
    requires CreateReply(api.Next(Call("host.create", HostList(hosts[..]))), hosts.Length)
    modifies api, hosts
    ensures api.calls == old(api.calls) + [Call("host.create", HostList(old(hosts[..])))]
    ensures var reply := api.server(|old(api.calls)|, Call("host.create", HostList(old(hosts[..]))));
            && (reply.CallFailed? ==> err == Failure(reply.error) && hosts[..] == old(hosts[..]))
            && (reply.Answered? ==>
                  && err == Success
                  && hosts[..] == WithHostIds(old(hosts[..]), Strings(ReturnedIds(reply, HOST_IDS))))
  {
    var reply := api.CallWithError("host.create", HostList(hosts[..]));
    if reply.CallFailed? {
      return Failure(reply.error);
    }
    AssignIds(hosts, reply.result.fields[HOST_IDS].elems);
    err := Success;
  }

  /** The create loop: the i-th returned id into the i-th record. */
  method AssignIds(hosts: array<Host>, ids: seq<JVal>)
    requires |ids| <= hosts.Length
    requires forall i :: 0 <= i < |ids| ==> ids[i].JStr?
    modifies hosts
    ensures hosts[..] == WithHostIds(old(hosts[..]), Strings(ids))
  {
    for i := 0 to |ids|
      invariant forall j :: 0 <= j < i ==> hosts[j] == old(hosts[j]).(hostId := ids[j].s)
      invariant forall j :: i <= j < hosts.Length ==> hosts[j] == old(hosts[j])
    {
      hosts[i] := hosts[i].(hostId := ids[i].s);
    }
    assert hosts[..] == WithHostIds(old(hosts[..]), Strings(ids));
  }

  method HostsDelete(api: Api, hosts: array<Host>) returns (err: Outcome)
    requires DeleteReplies(api.server, |api.calls|, HostIds(hosts[..]))
    modifies api, hosts
    ensures DeleteExchange(api.server, old(api.calls), api.calls, HostIds(old(hosts[..])), err)
    ensures err.Success? ==> hosts[..] == ClearedHosts(old(hosts[..]))
    ensures err.Failure? ==> hosts[..] == old(hosts[..])
  {
    var ids := new string[hosts.Length];
    for i := 0 to hosts.Length
      modifies ids
      invariant forall j :: 0 <= j < i ==> ids[j] == hosts[j].hostId
    {
      ids[i] := hosts[i].hostId;
    }
    assert ids[..] == HostIds(hosts[..]);
    assert hosts[..] == old(hosts[..]);
    err := HostsDeleteByIds(api, ids[..]);
    if err.Success? {
      for i := 0 to hosts.Length
        modifies hosts
        invariant forall j :: 0 <= j < i ==> hosts[j] == old(hosts[j]).(hostId := "")
        invariant forall j :: i <= j < hosts.Length ==> hosts[j] == old(hosts[j])
      {
        hosts[i] := hosts[i].(hostId := "");
      }
    }
  }

  method HostsDeleteByIds(api: Api, ids: seq<string>) returns (err: Outcome)
    requires DeleteReplies(api.server, |api.calls|, ids)
    modifies api
    ensures DeleteExchange(api.server, old(api.calls), api.calls, ids, err)
  {
    var hostIds := new map<string, string>[|ids|];
    for i := 0 to |ids|
      modifies hostIds
      invariant forall j :: 0 <= j < i ==> hostIds[j] == map["hostid" := ids[j]]
    {
      hostIds[i] := map["hostid" := ids[i]];
    }
    assert HostIdObjects(hostIds[..]) == ObjectDeleteCall(ids).params;
    var reply := api.CallWithError("host.delete", HostIdObjects(hostIds[..]));
    if reply.CallFailed? && reply.error.RpcError? && reply.error.code == PLAIN_IDS_CODE {
      reply := api.CallWithError("host.delete", IdList(ids));
    }
    if reply.CallFailed? {
      return Failure(reply.error);
    }
    var hostids := reply.result.fields[HOST_IDS].elems;
    err := CountCheck(|ids|, |hostids|);
  }

  /** Deleting what was created leaves the records as they were before create, ids cleared. */
  lemma DeleteUndoesCreate(hosts: seq<Host>, ids: seq<string>)
    requires |ids| <= |hosts|
    ensures HostIds(WithHostIds(hosts, ids))[..|ids|] == ids
    ensures ClearedHosts(WithHostIds(hosts, ids)) == ClearedHosts(hosts)
  {
  }

  /**
   * host.delete makes one call, or two when the first is refused with
   * code -32500; it succeeds only if the last call acknowledged as many ids as were sent.
   */
  lemma AtMostOneRetry(server: (nat, Call) -> Reply, before: seq<Call>, after: seq<Call>,
                       ids: seq<string>, err: Outcome)
    requires DeleteReplies(server, |before|, ids)
    requires DeleteExchange(server, before, after, ids, err)
    ensures |before| + 1 <= |after| <= |before| + 2
    ensures |after| == |before| + 2 <==> WantsPlainIds(server(|before|, ObjectDeleteCall(ids)))
    ensures after[..|before|] == before && after[|before|] == ObjectDeleteCall(ids)
    ensures err.Success? ==>
              var last := server(|after| - 1, after[|after| - 1]);
              last.Answered? && |ReturnedIds(last, HOST_IDS)| == |ids|
  {
  }
}
