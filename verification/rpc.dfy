/**
 * The generic caller the entity wrappers are built on, seen from the wrappers:
 * one call sends a method name and a payload and gets back either a raw JSON
 * result or an error. The network exchange itself is not modelled; the remote
 * end is a function of the call and of its position in the session.
 */
module Rpc {
  import opened Entities

  /** Errors a wrapper can return: the caller's errors and the wrappers' own count checks. */
  datatype Error =
    | RpcError(code: int, message: string, data: string)  // reported by the server
    | TransportError(reason: string)                      // any other failure of the call
    | ExpectedOneResult(count: nat)                       // a by-id lookup matched `count` records
    | ExpectedMore(expected: nat, got: nat)               // a delete returned `got` ids for `expected` sent

  /** What one call returns: the raw result, or an error. */
  datatype Reply = Answered(result: JVal) | CallFailed(error: Error)

  /** A value-or-error return, `(res, err)` in the wrappers. */
  datatype Result<T> = Ok(value: T) | Err(error: Error)

  /** An error-only return: `Success` stands for a nil error. */
  datatype Outcome = Success | Failure(error: Error)

  /** The request parameters, in each of the shapes the wrappers send. */
  datatype Payload =
    | Bag(entries: JObject)                          // a parameter map
    | IdList(ids: seq<string>)                       // a plain list of ids
    | HostIdObjects(objects: seq<map<string, string>>)  // one {"hostid": id} object per id
    | ActionList(actions: seq<Action>)               // records to create
    | HostList(hosts: seq<Host>)

  datatype Call = Call(name: string, params: Payload)

  /** A client session: the remote end and every call issued so far. */
  class Api {
    /** The server's answer to a call, given how many calls preceded it. */
    const server: (nat, Call) -> Reply
    /** The calls issued through this session, in order; its length is the request counter. */
    var calls: seq<Call>

    constructor (server: (nat, Call) -> Reply)
      ensures this.server == server && calls == []
    {
      this.server := server;
      calls := [];
    }

    /** The reply `c` gets if it is the next call of this session. */
    function Next(c: Call): Reply
      reads this
    {
      server(|calls|, c)
    }

    /** Exactly one exchange per call, no hidden retry. */
    method CallWithError(name: string, params: Payload) returns (reply: Reply)
      modifies this
      ensures calls == old(calls) + [Call(name, params)]
      ensures reply == old(Next(Call(name, params)))
    {
      reply := server(|calls|, Call(name, params));
      calls := calls + [Call(name, params)];
    }
  }

  /** Every key of `keys` that `o` holds is a JSON array (otherwise a type assertion panics). */
  predicate ListsAt(o: JObject, keys: set<string>)
  {
    forall k :: k in keys && k in o ==> o[k].JArr?
  }

  /** Objects only, each holding arrays under `keys`. */
  predicate RecordElems(elems: seq<JVal>, keys: set<string>)
  {
    forall i :: 0 <= i < |elems| ==> elems[i].JObj? && ListsAt(elems[i].fields, keys)
  }

  /** An array of objects, each holding arrays under `keys`. */
  predicate RecordList(v: JVal, keys: set<string>)
  {
    v.JArr? && RecordElems(v.elems, keys)
  }

  /** The shape a list-style reply must have for a wrapper not to panic. */
  predicate RecordsReply(reply: Reply, keys: set<string>)
  {
    reply.Answered? ==> RecordList(reply.result, keys)
  }

  /** The shape a create or delete acknowledgement must have: an object with an id array under `key`. */
  predicate IdsReply(reply: Reply, key: string)
  {
    reply.Answered? ==> reply.result.JObj? && key in reply.result.fields && reply.result.fields[key].JArr?
  }

  /** The ids a create or delete acknowledgement returned. */
  function ReturnedIds(reply: Reply, key: string): seq<JVal>
    requires reply.Answered? && IdsReply(reply, key)
  {
    reply.result.fields[key].elems
  }

  /** A list of strings as a JSON array. */
  function StringList(ids: seq<string>): JVal
  {
    JArr(seq(|ids|, i requires 0 <= i < |ids| => JStr(ids[i])))
  }

  /** The shape a list reply must have for the wrapper's type assertion on the result not to panic: an array. */
  predicate ArrayReply(reply: Reply)
  {
    reply.Answered? ==> reply.result.JArr?
  }

  /**
   * The records of an array, each element decoded on its own. The decoder sees
   * any element; one it cannot decode still yields a record, since its error is dropped.
   */
  function DecodeAll<T>(elems: seq<JVal>, decode: JVal -> T): seq<T>
  {
    seq(|elems|, i requires 0 <= i < |elems| => decode(elems[i]))
  }

  /** A list-style result: the caller's error as is, or one decoded record per element. */
  function ListResult<T>(reply: Reply, decode: JVal -> T): (r: Result<seq<T>>)
    requires ArrayReply(reply)
    ensures reply.CallFailed? ==> r == Err(reply.error)
    ensures reply.Answered? ==> r.Ok? && |r.value| == |reply.result.elems|
    ensures reply.Answered? ==>
              forall i :: 0 <= i < |r.value| ==> r.value[i] == decode(reply.result.elems[i])
  {
    match reply
    case CallFailed(e) => Err(e)
    case Answered(v) => Ok(DecodeAll(v.elems, decode))
  }

  /** A nested collection: decoded from `o[key]` when the key is present, empty otherwise. */
  function Nested<T>(o: JObject, key: string, decode: seq<JVal> -> seq<T>): seq<T>
    requires ListsAt(o, {key})
  {
    if key in o then decode(o[key].elems) else []
  }
}
